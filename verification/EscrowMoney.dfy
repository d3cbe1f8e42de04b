/** Solvency: what the contract holds of a token against what it owes. */
module EscrowMoney {
  import opened Prelude
  import opened EscrowModel
  import opened EscrowInvariants
  import opened EscrowRuns

  /** What a list of transfers brings into `self` in `token`. */
  function NetIn(ps: seq<Pay>, self: Address, token: Address): int
    decreases |ps|
  {
    if ps == [] then 0 else One(ps[0], self, token) + NetIn(ps[1..], self, token)
  }

  function One(p: Pay, self: Address, token: Address): int {
    if p.token != token then 0 else if p.dst == self then p.amount else if p.src == self then -p.amount else 0
  }

  /** No transfer is from an address to itself. */
  ghost predicate Proper(ps: seq<Pay>) {
    forall i :: 0 <= i < |ps| ==> ps[i].src != ps[i].dst
  }

  lemma {:induction false} PayAllNet(b: Balances, ps: seq<Pay>, self: Address, token: Address)
    requires Proper(ps) && PayAll(b, ps).Some?
    ensures BalanceOf(PayAll(b, ps).value, token, self) == BalanceOf(b, token, self) + NetIn(ps, self, token)
    decreases |ps|
  {
    hide BalanceOf;
    if ps != [] {
      var p := ps[0];
      PayAllNet(Transfer(b, p.token, p.src, p.dst, p.amount).value, ps[1..], self, token);
    }
  }

  lemma {:induction false} NetInConcat(a: seq<Pay>, b: seq<Pay>, self: Address, token: Address)
    ensures NetIn(a + b, self, token) == NetIn(a, self, token) + NetIn(b, self, token)
    decreases |a|
  {
    if a == [] {
      assert a + b == b;
    } else {
      assert (a + b)[1..] == a[1..] + b;
      NetInConcat(a[1..], b, self, token);
    }
  }

  lemma NetInTwo(p: Pay, q: Pay, self: Address, token: Address)
    ensures NetIn([p], self, token) == One(p, self, token)
    ensures NetIn([p, q], self, token) == One(p, self, token) + One(q, self, token)
  {
    assert [p][1..] == [] && [p, q][1..] == [q] && [q][1..] == [];
  }

  // ----- money at one match

  /** The call moves exactly what it changes in the match's dues. */
  ghost predicate PaysAt(s: State, e: Effect, id: nat) {
    && Proper(e.pays)
    && forall t: Address :: NetIn(e.pays, s.self, t) == Due(e.core, e.docket, id, t) - Due(s.core, s.docket, id, t)
  }

  lemma RefundNet(s: State, m: Match, p: Address, fee: int, t: Address)
    requires p != s.self && s.config.fees.treasury != s.self && fee >= 0
    ensures Proper(Refund(s.self, s.config.fees.treasury, m, p, fee))
    ensures NetIn(Refund(s.self, s.config.fees.treasury, m, p, fee), s.self, t)
            == if t == m.terms.token then -m.terms.stake else 0
  {
    var pay := Pay(m.terms.token, s.self, p, m.terms.stake - fee);
    var cut := Pay(m.terms.token, s.self, s.config.fees.treasury, fee);
    NetInTwo(pay, cut, s.self, t);
    assert [pay] + [cut] == [pay, cut] && [pay] + [] == [pay];
  }

  lemma RefundAllNet(s: State, m: Match, fee: int, t: Address)
    requires TermsOk(m.terms, s.self) && s.config.fees.treasury != s.self && fee >= 0
    ensures Proper(RefundDeposited(s.self, s.config.fees.treasury, m, fee))
    ensures NetIn(RefundDeposited(s.self, s.config.fees.treasury, m, fee), s.self, t)
            == if t == m.terms.token then -Deposits(m) else 0
  {
    hide Refund, NetIn;
    RefundNet(s, m, m.terms.player1, fee, t);
    RefundNet(s, m, m.terms.player2, fee, t);
    var a := if m.deposited1 then Refund(s.self, s.config.fees.treasury, m, m.terms.player1, fee) else [];
    var b := if m.deposited2 then Refund(s.self, s.config.fees.treasury, m, m.terms.player2, fee) else [];
    NetInConcat(a, b, s.self, t);
    NetInNone(s.self, t);
  }

  lemma NetInNone(self: Address, t: Address)
    ensures NetIn([], self, t) == 0
  {
  }

  lemma PayoutNet(s: State, m: Match, winner: Winner, t: Address)
    requires TermsOk(m.terms, s.self) && winner != NoWinner
    ensures Proper(Payout(s.self, m, winner))
    ensures NetIn(Payout(s.self, m, winner), s.self, t) == if t == m.terms.token then -2 * m.terms.stake else 0
  {
    var x, y := m.terms.player1, m.terms.player2;
    NetInTwo(Pay(m.terms.token, s.self, x, 2 * m.terms.stake), Pay(m.terms.token, s.self, y, 2 * m.terms.stake),
      s.self, t);
    NetInTwo(Pay(m.terms.token, s.self, y, 2 * m.terms.stake), Pay(m.terms.token, s.self, x, 2 * m.terms.stake),
      s.self, t);
    NetInTwo(Pay(m.terms.token, s.self, x, m.terms.stake), Pay(m.terms.token, s.self, y, m.terms.stake), s.self, t);
  }

  /** A winner's claim disburses net + referral + protocol fee, which is the pot unless the protocol
      fee is negative. */
  lemma ClaimNet(s: State, m: Match, p: Address, referral: int, protocol: int, t: Address)
    requires TermsOk(m.terms, s.self) && p != s.self && s.config.fees.recipient != s.self
    requires referral >= 0 && (referral > 0 ==> m.terms.referrer.Some?)
    ensures Proper(ClaimPays(s.self, s.config.fees.recipient, m, p, referral, protocol))
    ensures NetIn(ClaimPays(s.self, s.config.fees.recipient, m, p, referral, protocol), s.self, t) ==
      if t == m.terms.token then -2 * m.terms.stake + Min(protocol, 0) else 0
  {
    hide NetIn;
    var net := [Pay(m.terms.token, s.self, p, 2 * m.terms.stake - referral - protocol)];
    var a := if referral > 0 && m.terms.referrer.Some?
             then [Pay(m.terms.token, s.self, m.terms.referrer.value, referral)] else [];
    var b := if protocol > 0 then [Pay(m.terms.token, s.self, s.config.fees.recipient, protocol)] else [];
    NetInConcat(net + a, b, s.self, t);
    NetInConcat(net, a, s.self, t);
    NetInTwo(net[0], net[0], s.self, t);
    NetInNone(s.self, t);
    if a != [] { NetInTwo(a[0], a[0], s.self, t); }
    if b != [] { NetInTwo(b[0], b[0], s.self, t); }
  }

  /** Enough to check on the records of one match. */
  lemma PaysAtIntro(s: State, e: Effect, id: nat, change: int)
    requires id in s.core.matches && id in e.core.matches && Proper(e.pays)
    requires e.core.matches[id].terms == s.core.matches[id].terms
    requires forall t: Address :: NetIn(e.pays, s.self, t) == if t == s.core.matches[id].terms.token then change else 0
    requires change == Owed(e.core.matches[id], BondHeld(e.docket, id), id in e.docket.winner)
                       - Owed(s.core.matches[id], BondHeld(s.docket, id), id in s.docket.winner)
    ensures PaysAt(s, e, id)
  {
    hide Owed, BondHeld;
  }

  lemma NoBond(s: State, id: nat)
    requires Ready(s, id) && id !in s.docket.winner
    ensures BondHeld(s.docket, id) == 0
  {
  }

  lemma SilentPays(s: State, e: Effect, id: nat)
    requires id in s.core.matches && id in e.core.matches && e.pays == []
    requires e.core.matches[id].terms == s.core.matches[id].terms
    requires Owed(e.core.matches[id], BondHeld(e.docket, id), id in e.docket.winner)
             == Owed(s.core.matches[id], BondHeld(s.docket, id), id in s.docket.winner)
    ensures PaysAt(s, e, id)
  {
    hide Owed, BondHeld;
    PaysAtIntro(s, e, id, 0);
  }

  lemma DepositPays(s: State, id: nat, p: Address)
    requires Ready(s, id) && Deposit(s, id, p).Ok?
    ensures PaysAt(s, Deposit(s, id, p).value, id)
  {
    hide AtCap, TierAllows, BondHeld, PaysAt, NetIn;
    var m, e := s.core.matches[id], Deposit(s, id, p).value;
    forall t: Address
      ensures NetIn(e.pays, s.self, t) == if t == m.terms.token then m.terms.stake else 0
    {
      NetInTwo(e.pays[0], e.pays[0], s.self, t);
    }
    PaysAtIntro(s, e, id, m.terms.stake);
  }

  lemma CallOffPays(s: State, id: nat, fee: int, c: Core)
    requires Ready(s, id) && s.config.fees.treasury != s.self && fee >= 0
    requires s.core.matches[id].state == Pending || s.core.matches[id].state == Active
    requires id in c.matches && c.matches[id].state == Cancelled && c.matches[id].terms == s.core.matches[id].terms
    ensures PaysAt(s, Effect(c, s.docket, RefundDeposited(s.self, s.config.fees.treasury, s.core.matches[id], fee)), id)
  {
    hide BondHeld, PaysAt, NetIn, RefundDeposited;
    var m := s.core.matches[id];
    var e := Effect(c, s.docket, RefundDeposited(s.self, s.config.fees.treasury, m, fee));
    forall t: Address
      ensures Proper(e.pays) && NetIn(e.pays, s.self, t) == if t == m.terms.token then -Deposits(m) else 0
    {
      RefundAllNet(s, m, fee, t);
    }
    assert Proper(e.pays) by { RefundAllNet(s, m, fee, m.terms.token); }
    NoBond(s, id);
    PaysAtIntro(s, e, id, -Deposits(m));
  }

  lemma PayoutPays(s: State, id: nat, winner: Winner, e: Effect)
    requires Ready(s, id) && winner != NoWinner && Funded(s.core.matches[id]) && !Terminal(s.core.matches[id].state)
    requires id !in s.docket.byMatch && e.docket == s.docket && e.pays == Payout(s.self, s.core.matches[id], winner)
    requires id in e.core.matches && e.core.matches[id].terms == s.core.matches[id].terms
    requires e.core.matches[id].state == Completed
    requires (e.core.matches[id].timing.vestedAt.None? || id in s.docket.winner)
    ensures PaysAt(s, e, id)
  {
    hide PaysAt, NetIn, Payout;
    var m := s.core.matches[id];
    forall t: Address
      ensures NetIn(e.pays, s.self, t) == if t == m.terms.token then -2 * m.terms.stake else 0
    {
      PayoutNet(s, m, winner, t);
    }
    PayoutNet(s, m, winner, m.terms.token);
    PaysAtIntro(s, e, id, -2 * m.terms.stake);
  }

  lemma DisputePays(s: State, id: nat, p: Address, hashOk: bool)
    requires Ready(s, id) && OpenDispute(s, id, p, hashOk).Ok?
    ensures PaysAt(s, OpenDispute(s, id, p, hashOk).value, id)
  {
    hide PaysAt, NetIn, BondRate, BondFor;
    var m, e := s.core.matches[id], OpenDispute(s, id, p, hashOk).value;
    forall t: Address
      ensures NetIn(e.pays, s.self, t) == if t == m.terms.token then BondFor(s.config.stakes, m.terms.stake) else 0
    {
      NetInTwo(e.pays[0], e.pays[0], s.self, t);
    }
    PaysAtIntro(s, e, id, BondFor(s.config.stakes, m.terms.stake));
  }

  lemma CastPays(s: State, d: nat, p: Address, vote: bool)
    requires DocketOk(s.docket, s.core.matches) && Cast(s, d, p, vote).Ok?
    ensures PaysAt(s, Cast(s, d, p, vote).value, s.docket.disputes[d].matchId)
  {
    hide PaysAt, NetIn, WeightAt, DocketOk;
    InByMatch(s.docket, s.core.matches, d);
    SilentPays(s, Cast(s, d, p, vote).value, s.docket.disputes[d].matchId);
  }

  lemma ResolvePays(s: State, d: nat)
    requires DocketOk(s.docket, s.core.matches) && ResolveDispute(s, d).Ok? && Ready(s, s.docket.disputes[d].matchId)
    requires s.config.fees.treasury != s.self
    ensures PaysAt(s, ResolveDispute(s, d).value, s.docket.disputes[d].matchId)
  {
    hide PaysAt, NetIn, DocketOk, Payout, CountBoth, PotOverflows;
    var id, e := s.docket.disputes[d].matchId, ResolveDispute(s, d).value;
    var m, dispute := s.core.matches[id], s.docket.disputes[d];
    InByMatch(s.docket, s.core.matches, d);
    assert Plays(m, dispute.disputer) by { Disputer(s.docket, s.core.matches, d); }
    SnapshotFrames(Put(s.core, id, m.(state := Completed, timing := m.timing.(completedAt := Some(s.ledger)))), m,
      s.ledger);
    var payout, last := Payout(s.self, m, Verdict(dispute, s.docket.winner[id])), e.pays[|e.pays| - 1];
    assert e.pays == payout + [last];
    forall t: Address
      ensures Proper(e.pays)
      ensures NetIn(e.pays, s.self, t) == if t == m.terms.token then -2 * m.terms.stake - dispute.bond else 0
    {
      PayoutNet(s, m, Verdict(dispute, s.docket.winner[id]), t);
      NetInConcat(payout, [last], s.self, t);
      NetInTwo(last, last, s.self, t);
    }
    PayoutNet(s, m, Verdict(dispute, s.docket.winner[id]), m.terms.token);
    PaysAtIntro(s, e, id, -2 * m.terms.stake - dispute.bond);
  }

  lemma Disputer(d: Docket, matches: map<nat, Match>, k: nat)
    requires DocketOk(d, matches) && k in d.disputes
    ensures d.disputes[k].matchId in matches && Plays(matches[d.disputes[k].matchId], d.disputes[k].disputer)
  {
    assert DisputeOk(d, matches, k);
  }

  // ----- claims

  /** The protocol fee on a pot is non-negative exactly when no fee is charged or its cap is not
      negative. */
  predicate FeeSound(c: Config) {
    c.fees.protocolBps == 0 || c.fees.cap.None? || c.fees.cap.value >= 0
  }

  lemma FeeSigns(c: Config, m: Match, pot: int)
    requires pot > 0
    ensures ProtocolFee(c, pot).Some? ==> (ProtocolFee(c, pot).value >= 0 <==> FeeSound(c))
    ensures ReferralFee(c, m, pot).Some? ==>
      ReferralFee(c, m, pot).value >= 0 && (ReferralFee(c, m, pot).value > 0 ==> m.terms.referrer.Some?)
  {
  }

  /** How a claim moves the contract's surplus: it pays out of what the match no longer has when the
      result went through the docket, and overpays by a negative protocol fee. */
  function ClaimGap(s: State, m: Match, docketed: bool): int {
    var fee := if m.winner == Draw || ProtocolFee(s.config, 2 * m.terms.stake).None? then 0
               else Min(ProtocolFee(s.config, 2 * m.terms.stake).value, 0);
    if docketed then fee - (if m.winner == Draw then m.terms.stake else 2 * m.terms.stake) else fee
  }

  /** What a successful claim sends out. */
  lemma ClaimPaysShape(s: State, id: nat, p: Address)
    requires Claim(s, id, p).Ok?
    ensures id in s.core.matches
    ensures var m, e := s.core.matches[id], Claim(s, id, p).value;
      var pot := 2 * m.terms.stake;
      && m.winner != NoWinner
      && m.winner != (if p == m.terms.player1 then Player2 else Player1)
      && !(if p == m.terms.player1 then m.claimed1 else m.claimed2)
      && (m.winner == Draw ==> e.pays == [Pay(m.terms.token, s.self, p, m.terms.stake)])
      && (m.winner != Draw ==>
            && ReferralFee(s.config, m, pot).Some? && ProtocolFee(s.config, pot).Some?
            && e.pays == ClaimPays(s.self, s.config.fees.recipient, m, p, ReferralFee(s.config, m, pot).value,
              ProtocolFee(s.config, pot).value))
  {
    hide ReferralFee, ProtocolFee, ClaimPays, Put, Snapshot, Claimed;
  }

  /** A claim sends out the claimed share and, through a negative protocol fee, possibly more. */
  lemma ClaimSends(s: State, id: nat, p: Address, t: Address)
    requires Ready(s, id) && Claim(s, id, p).Ok? && s.config.fees.recipient != s.self
    ensures var m, e := s.core.matches[id], Claim(s, id, p).value;
      && Proper(e.pays)
      && NetIn(e.pays, s.self, t) ==
           if t != m.terms.token then 0
           else if m.winner == Draw then -m.terms.stake
           else -2 * m.terms.stake + ClaimGap(s, m, false)
  {
    ClaimShape(s, id, p);
    ClaimPaysShape(s, id, p);
    hide Claim, NetIn, ReferralFee, ProtocolFee, ClaimPays;
    var m, e := s.core.matches[id], Claim(s, id, p).value;
    if m.winner == Draw {
      NetInTwo(e.pays[0], e.pays[0], s.self, t);
    } else {
      var pot := 2 * m.terms.stake;
      FeeSigns(s.config, m, pot);
      ClaimNet(s, m, p, ReferralFee(s.config, m, pot).value, ProtocolFee(s.config, pot).value, t);
    }
  }

  /** What a claim takes off a match that was settled at once. */
  lemma ClaimTakes(m: Match, m': Match, p: Address, bond: int, docketed: bool)
    requires m.state == Completed && m.timing.vestedAt.Some? && m.winner != NoWinner && Plays(m, p)
    requires m.terms.player1 != m.terms.player2
    requires m.winner != (if p == m.terms.player1 then Player2 else Player1)
    requires !(if p == m.terms.player1 then m.claimed1 else m.claimed2)
    requires m' == Claimed(m, p)
    ensures Owed(m', bond, docketed) - Owed(m, bond, docketed) ==
      if docketed then 0 else if m.winner == Draw then -m.terms.stake else -2 * m.terms.stake
  {
  }

  lemma ClaimMoves(s: State, id: nat, p: Address, t: Address)
    requires Ready(s, id) && Claim(s, id, p).Ok? && s.config.fees.recipient != s.self
    ensures var m, e := s.core.matches[id], Claim(s, id, p).value;
      && Proper(e.pays)
      && NetIn(e.pays, s.self, t) == Due(e.core, e.docket, id, t) - Due(s.core, s.docket, id, t)
           + if t == m.terms.token then ClaimGap(s, m, id in s.docket.winner) else 0
  {
    ClaimShape(s, id, p);
    ClaimPaysShape(s, id, p);
    ClaimSends(s, id, p, t);
    hide Claim, NetIn, Owed, BondHeld, ProtocolFee, ClaimPays, ReferralFee;
    var m, e := s.core.matches[id], Claim(s, id, p).value;
    ClaimTakes(m, e.core.matches[id], p, BondHeld(s.docket, id), id in s.docket.winner);
  }

  // ----- every call

  /** How much a call changes the surplus in `token`. */
  function Gap(s: State, op: Op, t: Address): int {
    if op.ClaimPayout? && op.id in s.core.matches && Attempt(s, op).Ok? && s.core.matches[op.id].terms.token == t
    then ClaimGap(s, s.core.matches[op.id], op.id in s.docket.winner) else 0
  }

  lemma CreatePays(s: State, t: Terms, platform: Platform)
    requires MatchesOk(s.core, s.docket, s.self) && DocketOk(s.docket, s.core.matches) && Create(s, t, platform).Ok?
    ensures PaysAt(s, Create(s, t, platform).value, s.core.count)
  {
    hide TierAllows, GameIdOk, TokenFault;
    assert s.core.count !in s.core.matches;
  }

  /** Everything but a claim pays exactly what it changes in the dues. */
  lemma CallPays(s: State, op: Op)
    requires Inv(s) && Legal(s, Call(op)) && Attempt(s, op).Ok? && !op.ClaimPayout?
    ensures PaysAt(s, Attempt(s, op).value, Target(s, op))
  {
    hide Inv, Ready, MatchesOk, DocketOk, PaysAt, Local, SoundAt, NetIn, Create, Deposit, OpenDispute, Cast,
      ResolveDispute, Owed,
      BondHeld, RefundDeposited, Payout, ReleaseDeposited, SnapshotDeposited, SnapshotBoth, CountBoth, Stalled,
        PotOverflows;
    var e, id := Attempt(s, op).value, Target(s, op);
    Parts(s);
    if id in s.core.matches {
      ReadyAt(s, id);
    }
    match op
    case CreateMatch(terms, platform) => CreatePays(s, terms, platform);
    case DepositStake(_, who) => DepositOnce(s, id, who); DepositPays(s, id, who);
    case SubmitResult(_, winner, who) => SettlePays(s, id, winner, who);
    case CancelMatch(_, who) => CancelPays(s, op);
    case ExpireMatch(_) => CancelPays(s, op);
    case VoteRollback(_, who, reasonLen) => RollbackFinds(s, id, who, reasonLen); RollbackPays(s, id, who, reasonLen);
    case AdminResolve(_, who, winner) => StalledFinds(s, id, who, winner); StalledPays(s, id, who, winner);
    case FinalizeMatch(_) => FinalizePays(s, id);
    case RaiseDispute(_, who, hashOk) => DisputeFinds(s, id, who, hashOk); DisputePays(s, id, who, hashOk);
    case VoteDispute(d, who, vote) => CastFinds(s, d, who, vote); CastPays(s, d, who, vote);
    case SettleDispute(d) => ResolveFinds(s, d); DisputeReady(s, d); ResolvePays(s, d);
    case _ => LivePays(s, op);
  }

  lemma LivePays(s: State, op: Op)
    requires op.PauseMatch? || op.ResumeMatch? || op.Heartbeat?
    requires Attempt(s, op).Ok? && op.id in s.core.matches
    ensures PaysAt(s, Attempt(s, op).value, op.id)
  {
    hide PaysAt;
    SilentPays(s, Attempt(s, op).value, op.id);
  }

  lemma SettlePays(s: State, id: nat, winner: Winner, p: Address)
    requires Settle(s, id, winner, p).Ok? && Ready(s, id)
    ensures PaysAt(s, Settle(s, id, winner, p).value, id)
  {
    hide PaysAt, SnapshotBoth, CountBoth, ReleaseBoth;
    var m, e := s.core.matches[id], Settle(s, id, winner, p).value;
    var m1 := Settled(m, winner, s.time);
    var m2 := m1.(timing := m1.timing.(completedAt := Some(s.ledger)));
    SnapshotFrames(Put(s.core, id, m2), m, s.ledger);
    ReleaseBothSpec(CountBoth(Put(s.core, id, m2), m), m);
    SnapshotFrames(ReleaseBoth(CountBoth(Put(s.core, id, m2), m), m), m, s.ledger);
    SnapshotFrames(Put(s.core, id, m1.(state := PendingResult)), m, s.ledger);
    SilentPays(s, e, id);
  }

  lemma CancelPays(s: State, op: Op)
    requires op.CancelMatch? || op.ExpireMatch?
    requires Attempt(s, op).Ok? && op.id in s.core.matches && Ready(s, op.id) && ConfigOk(s.config, s.self)
    ensures PaysAt(s, Attempt(s, op).value, op.id)
  {
    hide PaysAt, RefundDeposited, ReleaseDeposited;
    var m, e := s.core.matches[op.id], Attempt(s, op).value;
    ReleaseDepositedSpec(Put(s.core, op.id, CalledOff(m, s.ledger)), m, s.ledger);
    CallOffPays(s, op.id, if op.ExpireMatch? then 0 else m.terms.stake * s.config.fees.cancelBps / 10_000, e.core);
  }

  lemma RollbackPays(s: State, id: nat, p: Address, reasonLen: nat)
    requires Ready(s, id) && Rollback(s, id, p, reasonLen).Ok? && ConfigOk(s.config, s.self)
    ensures PaysAt(s, Rollback(s, id, p, reasonLen).value, id)
  {
    hide PaysAt, SnapshotDeposited;
    var m, e := s.core.matches[id], Rollback(s, id, p, reasonLen).value;
    var m1 := Consent(m, p);
    SnapshotFrames(Put(s.core, id, CalledOff(m1, s.ledger)), m1, s.ledger);
    if m1.rollback1 && m1.rollback2 {
      CallOffPays(s, id, 0, e.core);
    } else {
      SilentPays(s, e, id);
    }
  }

  lemma StalledPays(s: State, id: nat, p: Address, winner: Winner)
    requires Ready(s, id) && ResolveStalled(s, id, p, winner).Ok?
    ensures PaysAt(s, ResolveStalled(s, id, p, winner).value, id)
  {
    hide PaysAt, SnapshotBoth, CountBoth, Payout, PotOverflows, BondHeld;
    var m, e := s.core.matches[id], ResolveStalled(s, id, p, winner).value;
    var c1 := Put(s.core, id, m.(state := Completed, winner := winner,
      timing := m.timing.(completedAt := Some(s.ledger))));
    SnapshotFrames(c1, m, s.ledger);
    SnapshotFrames(SnapshotBoth(c1, m, s.ledger), m, s.ledger);
    PayoutPays(s, id, winner, e);
  }

  lemma FinalizePays(s: State, id: nat)
    requires Finalize(s, id).Ok? && id in s.core.matches && Ready(s, id)
    ensures PaysAt(s, Finalize(s, id).value, id)
  {
    hide PaysAt, SnapshotBoth, CountBoth, ReleaseBoth, Payout, PotOverflows, BondHeld;
    var m, e := s.core.matches[id], Finalize(s, id).value;
    var c1 := Put(s.core, id, m.(state := Completed, timing := m.timing.(completedAt := Some(s.ledger))));
    ReleaseBothSpec(c1, m);
    SnapshotFrames(ReleaseBoth(c1, m), m, s.ledger);
    SnapshotFrames(CountBoth(ReleaseBoth(c1, m), m), m, s.ledger);
    PayoutPays(s, id, s.docket.winner[id], e);
  }

  // ----- surplus

  /** What the contract holds of a token beyond everything it owes in it. */
  ghost function Surplus(s: State, t: Address): int {
    BalanceOf(s.balances, t, s.self) - DueAll(s.core, s.docket, t)
  }

  lemma DueElsewhere(s: State, e: Effect, id: nat, k: nat, t: Address)
    requires OthersSame(s, e, id) && k != id
    ensures Due(e.core, e.docket, k, t) == Due(s.core, s.docket, k, t)
  {
    hide BondHeld, Owed;
    assert Get(e.docket.winner, k) == Get(s.docket.winner, k);
    assert BondHeld(e.docket, k) == BondHeld(s.docket, k);
  }

  lemma AbsentDue(c: Core, d: Docket, id: nat, t: Address)
    ensures id !in c.matches ==> Due(c, d, id, t) == 0
  {
  }

  lemma DueMoves(s: State, e: Effect, id: nat, t: Address)
    requires OthersSame(s, e, id)
    ensures DueAll(e.core, e.docket, t)
            == DueAll(s.core, s.docket, t) + Due(e.core, e.docket, id, t) - Due(s.core, s.docket, id, t)
  {
    hide Due, OthersSame, MapSum;
    Updated(s, e, id);
    var before, after := DueBy(s.core, s.docket, t), DueBy(e.core, e.docket, t);
    forall k | k in e.core.matches && k != id
      ensures Due(e.core, e.docket, k, t) == Due(s.core, s.docket, k, t)
    {
      DueElsewhere(s, e, id, k, t);
    }
    assert after == before[id := after[id]];
    MapSumUpdate(before, id, after[id]);
    AbsentDue(s.core, s.docket, id, t);
  }

  /** Every call pays what it changes in the dues, up to the gap of a claim. */
  lemma CallMoves(s: State, op: Op, t: Address)
    requires Inv(s) && Legal(s, Call(op)) && Attempt(s, op).Ok?
    ensures var e, id := Attempt(s, op).value, Target(s, op);
      && Proper(e.pays)
      && NetIn(e.pays, s.self, t) == Due(e.core, e.docket, id, t) - Due(s.core, s.docket, id, t) + Gap(s, op, t)
  {
    hide Inv, Ready, MatchesOk, DocketOk, NetIn, Due, Claim, ClaimGap;
    Parts(s);
    if op.ClaimPayout? {
      ClaimShape(s, op.id, op.who);
      ReadyAt(s, op.id);
      ClaimMoves(s, op.id, op.who, t);
    } else {
      CallPays(s, op);
    }
  }

  function StepGap(s: State, e: Event, t: Address): int {
    if e.Call? && Perform(s, e.op).Ok? then Gap(s, e.op, t) else 0
  }

  lemma CallSurplus(s: State, op: Op, t: Address)
    requires Inv(s) && Legal(s, Call(op)) && Perform(s, op).Ok?
    ensures Surplus(Perform(s, op).value, t) == Surplus(s, t) + Gap(s, op, t)
  {
    hide Inv, Attempt, PayAll, Local, OthersSame, NetIn, Due, DueAll, Gap, Proper, Target;
    var e, id := Attempt(s, op).value, Target(s, op);
    CallLocal(s, op);
    LocalOthers(s, e, id);
    CallMoves(s, op, t);
    DueMoves(s, e, id, t);
    PayAllNet(s.balances, e.pays, s.self, t);
  }

  /** The surplus in every token changes by nothing but the gaps of claims. */
  lemma StepSurplus(s: State, e: Event, t: Address)
    requires Inv(s) && Legal(s, e)
    ensures Surplus(Step(s, e), t) == Surplus(s, t) + StepGap(s, e, t)
  {
    hide Inv, Perform, DueAll, Gap;
    match e
    case Call(op) => if Perform(s, op).Ok? { CallSurplus(s, op, t); }
    case _ =>
  }

  /** A claim that keeps the surplus: settled without a dispute period, and either a draw or charged
      a non-negative protocol fee. */
  predicate FairClaim(s: State, e: Event, t: Address) {
    e.Call? && e.op.ClaimPayout? && e.op.id in s.core.matches && s.core.matches[e.op.id].terms.token == t
    && Perform(s, e.op).Ok? ==>
      e.op.id !in s.docket.winner && (s.core.matches[e.op.id].winner == Draw || FeeSound(s.config))
  }

  /** No step raises the surplus, and a step keeps it exactly when it is not an unfair claim. */
  lemma GapSign(s: State, e: Event, t: Address)
    requires Inv(s) && Legal(s, e)
    ensures StepGap(s, e, t) <= 0
    ensures StepGap(s, e, t) == 0 <==> FairClaim(s, e, t)
  {
    hide Perform, Claim, ProtocolFee, MatchesOk, DocketOk, CountersOk, WithinCap, LogOk;
    if e.Call? && e.op.ClaimPayout? && Perform(s, e.op).Ok? {
      var id := e.op.id;
      assert Attempt(s, e.op).Ok? by { Attempted(s, e.op); }
      ClaimPaysShape(s, id, e.op.who);
      ReadyAt(s, id);
      var m := s.core.matches[id];
      FeeSigns(s.config, m, 2 * m.terms.stake);
    }
  }

  lemma Attempted(s: State, op: Op)
    requires Perform(s, op).Ok?
    ensures Attempt(s, op).Ok?
  {
  }

  /** Solvency over whole runs: a token's surplus never rises, and it is what it was at the start
      exactly when every claim in that token was fair. */
  lemma {:induction false} RunSurplus(trace: seq<State>, events: seq<Event>, n: nat, t: Address)
    requires Run(trace, events) && Inv(trace[0]) && n < |trace|
    ensures Surplus(trace[n], t) <= Surplus(trace[0], t)
    ensures Surplus(trace[n], t) == Surplus(trace[0], t) <==>
      forall i :: 0 <= i < n ==> FairClaim(trace[i], events[i], t)
  {
    hide Inv, Step, Legal, Surplus, StepGap, FairClaim;
    if n > 0 {
      RunSurplus(trace, events, n - 1, t);
      RunKeeps(trace, events, n - 1);
      StepSurplus(trace[n - 1], events[n - 1], t);
      GapSign(trace[n - 1], events[n - 1], t);
    }
  }
}
