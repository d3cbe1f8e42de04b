/** Who gets what: the balance of every account after every successful call. */
module EscrowAccounts {
  import opened Prelude
  import opened EscrowModel
  import opened EscrowInvariants
  import opened EscrowRuns
  import opened EscrowMoney
  import opened EscrowSolvency

  // ----- rates

  predicate WithinRate(f: int, amount: int, bps: nat) {
    10_000 * f <= amount * bps
  }

  /** The greatest whole amount within `bps` basis points of `amount`. */
  function Cut(amount: int, bps: nat): (f: int)
    ensures WithinRate(f, amount, bps)
    ensures forall g: int :: WithinRate(g, amount, bps) ==> g <= f
  {
    amount * bps / 10_000
  }

  /** The protocol fee is the greatest amount within its rate and, if there is one, its cap. */
  lemma ProtocolFeeExact(c: Config, pot: int)
    ensures ProtocolFee(c, pot).None? <==> c.fees.protocolBps != 0 && pot * c.fees.protocolBps > I128_MAX
    ensures c.fees.protocolBps == 0 ==> ProtocolFee(c, pot) == Some(0)
    ensures c.fees.protocolBps != 0 && ProtocolFee(c, pot).Some? ==>
      var fee, cap := ProtocolFee(c, pot).value, c.fees.cap;
      && WithinRate(fee, pot, c.fees.protocolBps) && (cap.Some? ==> fee <= cap.value)
      && forall g: int :: WithinRate(g, pot, c.fees.protocolBps) && (cap.Some? ==> g <= cap.value) ==> g <= fee
  {
    var cut := Cut(pot, c.fees.protocolBps);
  }

  /** The referral fee is its rate of the cancellation rate of the pot, each rounded down. */
  lemma ReferralFeeExact(c: Config, m: Match, pot: int)
    ensures m.terms.referrer.None? || c.fees.cancelBps == 0 ==> ReferralFee(c, m, pot) == Some(0)
    ensures m.terms.referrer.Some? && c.fees.cancelBps != 0 ==>
      var platform := Cut(pot, c.fees.cancelBps);
      if pot * c.fees.cancelBps > I128_MAX || platform * c.fees.referralBps > I128_MAX
      then ReferralFee(c, m, pot).None?
      else ReferralFee(c, m, pot) == Some(Cut(platform, c.fees.referralBps))
  {
  }

  /** The bond is its rate of the stake, rounded down, and at least one unit. */
  lemma BondExact(st: Stakes, stake: int)
    ensures var cut := Cut(stake, BondRate(st, stake)); BondFor(st, stake) == if cut < 1 then 1 else cut
  {
    hide BondRate;
  }

  // ----- shares

  function Named(t: Terms, winner: Winner): Option<Address> {
    match winner
    case Player1 => Some(t.player1)
    case Player2 => Some(t.player2)
    case _ => None
  }

  /** The part of the pot a result gives account `a`. */
  function Prize(t: Terms, winner: Winner, a: Address): int {
    if winner == Draw then if a == t.player1 || a == t.player2 then t.stake else 0
    else if Named(t, winner) == Some(a) then 2 * t.stake
    else 0
  }

  function Fee(fee: Option<int>): int {
    if fee.Some? then fee.value else 0
  }

  /** What a successful call brings account `a` in the token of its match. */
  ghost function Gain(s: State, op: Op, a: Address): int {
    var id := Target(s, op);
    if id !in s.core.matches then 0
    else
      var m := s.core.matches[id];
      var stake := m.terms.stake;
      match op
      case DepositStake(_, who) => if a == who then -stake else 0
      case CancelMatch(_, _) =>
        var fee := Cut(stake, s.config.fees.cancelBps);
        (if HasDeposit(m, a) then stake - fee else 0) +
        (if a != s.config.fees.treasury then 0 else if m.deposited1 && m.deposited2 then 2 * fee
         else if m.deposited1 || m.deposited2 then fee else 0)
      case ExpireMatch(_) => if HasDeposit(m, a) then stake else 0
      case VoteRollback(_, who, _) =>
        if Plays(m, a) && (if who == m.terms.player1 then m.rollback2 else m.rollback1) then stake else 0
      case AdminResolve(_, _, winner) => Prize(m.terms, winner, a)
      case FinalizeMatch(_) => if id in s.docket.winner then Prize(m.terms, s.docket.winner[id], a) else 0
      case ClaimPayout(_, who) =>
        var referral, protocol := Fee(ReferralFee(s.config, m, 2 * stake)), Fee(ProtocolFee(s.config, 2 * stake));
        if m.winner == Draw then if a == who then stake else 0
        else (if a == who then 2 * stake - referral - protocol else 0) +
             (if m.terms.referrer == Some(a) then referral else 0) +
             (if a == s.config.fees.recipient && protocol > 0 then protocol else 0)
      case RaiseDispute(_, who, _) =>
        var cut := Cut(stake, BondRate(s.config.stakes, stake));
        if a == who then if cut < 1 then -1 else -cut else 0
      case SettleDispute(d) =>
        if d !in s.docket.disputes || id !in s.docket.winner then 0
        else
          var dispute := s.docket.disputes[d];
          if dispute.yes > dispute.no then Prize(m.terms, Draw, a) + if a == dispute.disputer then dispute.bond else 0
          else Prize(m.terms, s.docket.winner[id], a) + if a == s.config.fees.treasury then dispute.bond else 0
      case _ => 0
  }

  // ----- what the transfers of each call bring

  lemma PayoutGain(self: Address, m: Match, winner: Winner, a: Address)
    requires a != self && m.terms.player1 != m.terms.player2
    ensures NetIn(Payout(self, m, winner), a, m.terms.token) == Prize(m.terms, winner, a)
  {
    var x, y, n, t := m.terms.player1, m.terms.player2, m.terms.stake, m.terms.token;
    NetInTwo(Pay(t, self, x, 2 * n), Pay(t, self, x, 2 * n), a, t);
    NetInTwo(Pay(t, self, y, 2 * n), Pay(t, self, y, 2 * n), a, t);
    NetInTwo(Pay(t, self, x, n), Pay(t, self, y, n), a, t);
  }

  lemma RefundGain(self: Address, treasury: Address, m: Match, p: Address, fee: int, a: Address)
    requires a != self && fee >= 0
    ensures NetIn(Refund(self, treasury, m, p, fee), a, m.terms.token)
            == (if a == p then m.terms.stake - fee else 0) + (if a == treasury then fee else 0)
  {
    var pay, cut := Pay(m.terms.token, self, p, m.terms.stake - fee), Pay(m.terms.token, self, treasury, fee);
    NetInTwo(pay, cut, a, m.terms.token);
    assert [pay] + [cut] == [pay, cut] && [pay] + [] == [pay];
  }

  lemma RefundAllGain(self: Address, treasury: Address, m: Match, fee: int, a: Address)
    requires a != self && fee >= 0 && m.terms.player1 != m.terms.player2
    ensures NetIn(RefundDeposited(self, treasury, m, fee), a, m.terms.token)
            == (if HasDeposit(m, a) then m.terms.stake - fee else 0)
               + (if a != treasury then 0 else if m.deposited1 && m.deposited2 then 2 * fee
                  else if m.deposited1 || m.deposited2 then fee else 0)
  {
    hide Refund, NetIn;
    var x := if m.deposited1 then Refund(self, treasury, m, m.terms.player1, fee) else [];
    var y := if m.deposited2 then Refund(self, treasury, m, m.terms.player2, fee) else [];
    RefundGain(self, treasury, m, m.terms.player1, fee, a);
    RefundGain(self, treasury, m, m.terms.player2, fee, a);
    NetInConcat(x, y, a, m.terms.token);
    NetInNone(a, m.terms.token);
  }

  lemma ClaimPaysGain(self: Address, recipient: Address, m: Match, p: Address, referral: int, protocol: int, a: Address)
    requires a != self && referral >= 0 && (referral > 0 ==> m.terms.referrer.Some?)
    ensures NetIn(ClaimPays(self, recipient, m, p, referral, protocol), a, m.terms.token)
            == (if a == p then 2 * m.terms.stake - referral - protocol else 0)
               + (if m.terms.referrer == Some(a) then referral else 0)
               + (if a == recipient && protocol > 0 then protocol else 0)
  {
    hide NetIn;
    var t := m.terms.token;
    var net := [Pay(t, self, p, 2 * m.terms.stake - referral - protocol)];
    var x := if referral > 0 && m.terms.referrer.Some? then [Pay(t, self, m.terms.referrer.value, referral)] else [];
    var y := if protocol > 0 then [Pay(t, self, recipient, protocol)] else [];
    NetInConcat(net + x, y, a, t);
    NetInConcat(net, x, a, t);
    NetInTwo(net[0], net[0], a, t);
    NetInNone(a, t);
    if x != [] { NetInTwo(x[0], x[0], a, t); }
    if y != [] { NetInTwo(y[0], y[0], a, t); }
  }

  lemma ClaimGain(s: State, id: nat, p: Address, a: Address)
    requires Ready(s, id) && Claim(s, id, p).Ok? && a != s.self
    ensures NetIn(Claim(s, id, p).value.pays, a, s.core.matches[id].terms.token) == Gain(s, ClaimPayout(id, p), a)
  {
    ClaimPaysShape(s, id, p);
    hide Claim, NetIn, ReferralFee, ProtocolFee, ClaimPays;
    var m, e := s.core.matches[id], Claim(s, id, p).value;
    if m.winner == Draw {
      NetInTwo(e.pays[0], e.pays[0], a, m.terms.token);
    } else {
      var pot := 2 * m.terms.stake;
      FeeSigns(s.config, m, pot);
      ClaimPaysGain(s.self, s.config.fees.recipient, m, p, ReferralFee(s.config, m, pot).value,
        ProtocolFee(s.config, pot).value, a);
    }
  }

  lemma ResolveGain(s: State, d: nat, a: Address)
    requires Inv(s) && ResolveDispute(s, d).Ok? && a != s.self
    ensures d in s.docket.disputes && s.docket.disputes[d].matchId in s.core.matches
    ensures NetIn(ResolveDispute(s, d).value.pays, a, s.core.matches[s.docket.disputes[d].matchId].terms.token)
            == Gain(s, SettleDispute(d), a)
  {
    hide Inv, NetIn, Payout, Prize, CountBoth, PotOverflows;
    var dispute := s.docket.disputes[d];
    var id := dispute.matchId;
    var m, pending := s.core.matches[id], s.docket.winner[id];
    DisputeReady(s, d);
    var holder := if dispute.yes > dispute.no then dispute.disputer else s.config.fees.treasury;
    var bond := Pay(m.terms.token, s.self, holder, dispute.bond);
    NetInConcat(Payout(s.self, m, Verdict(dispute, pending)), [bond], a, m.terms.token);
    NetInTwo(bond, bond, a, m.terms.token);
    PayoutGain(s.self, m, Verdict(dispute, pending), a);
  }

  /** Every transfer of a call is in the token of its match. */
  ghost predicate AllIn(ps: seq<Pay>, t: Address) {
    forall i :: 0 <= i < |ps| ==> ps[i].token == t
  }

  lemma {:induction false} OtherTokens(ps: seq<Pay>, a: Address, t: Address, u: Address)
    requires AllIn(ps, t) && u != t
    ensures NetIn(ps, a, u) == 0
    decreases |ps|
  {
    if ps != [] {
      OtherTokens(ps[1..], a, t, u);
    }
  }

  lemma ListTokens(self: Address, treasury: Address, m: Match, fee: int, winner: Winner)
    ensures AllIn(RefundDeposited(self, treasury, m, fee), m.terms.token)
    ensures AllIn(Payout(self, m, winner), m.terms.token)
  {
  }

  /** The transfers of `op` in its match's token bring account `a` its gain, and are in no other token. */
  ghost predicate Brings(s: State, op: Op, a: Address)
    requires Attempt(s, op).Ok?
  {
    var e, id := Attempt(s, op).value, Target(s, op);
    if id !in s.core.matches then e.pays == []
    else
      var t := s.core.matches[id].terms.token;
      AllIn(e.pays, t) && NetIn(e.pays, a, t) == Gain(s, op, a)
  }

  lemma CallOffBrings(s: State, op: Op, a: Address)
    requires op.CancelMatch? || op.ExpireMatch?
    requires Attempt(s, op).Ok? && op.id in s.core.matches && Ready(s, op.id) && a != s.self
    ensures Brings(s, op, a)
  {
    hide ReleaseDeposited, RefundDeposited, NetIn;
    var m := s.core.matches[op.id];
    var fee := if op.CancelMatch? then m.terms.stake * s.config.fees.cancelBps / 10_000 else 0;
    ListTokens(s.self, s.config.fees.treasury, m, fee, Draw);
    RefundAllGain(s.self, s.config.fees.treasury, m, fee, a);
  }

  lemma RollbackBrings(s: State, id: nat, p: Address, reasonLen: nat, a: Address)
    requires Ready(s, id) && Rollback(s, id, p, reasonLen).Ok? && a != s.self
    ensures var e, t := Rollback(s, id, p, reasonLen).value, s.core.matches[id].terms.token;
      AllIn(e.pays, t) && NetIn(e.pays, a, t) == Gain(s, VoteRollback(id, p, reasonLen), a)
  {
    hide SnapshotDeposited, RefundDeposited, NetIn, CalledOff, Put;
    var m1 := Consent(s.core.matches[id], p);
    ListTokens(s.self, s.config.fees.treasury, m1, 0, Draw);
    RefundAllGain(s.self, s.config.fees.treasury, m1, 0, a);
    NetInNone(a, m1.terms.token);
  }

  lemma StalledBrings(s: State, id: nat, p: Address, winner: Winner, a: Address)
    requires Ready(s, id) && ResolveStalled(s, id, p, winner).Ok? && a != s.self
    ensures var e, t := ResolveStalled(s, id, p, winner).value, s.core.matches[id].terms.token;
      AllIn(e.pays, t) && NetIn(e.pays, a, t) == Prize(s.core.matches[id].terms, winner, a)
  {
    hide SnapshotBoth, CountBoth, Payout, NetIn, Put, Prize, PotOverflows, Stalled;
    ListTokens(s.self, s.self, s.core.matches[id], 0, winner);
    PayoutGain(s.self, s.core.matches[id], winner, a);
  }

  lemma FinalizeBrings(s: State, id: nat, a: Address)
    requires Ready(s, id) && Finalize(s, id).Ok? && a != s.self
    ensures id in s.docket.winner
    ensures var e, t := Finalize(s, id).value, s.core.matches[id].terms.token;
      AllIn(e.pays, t) && NetIn(e.pays, a, t) == Prize(s.core.matches[id].terms, s.docket.winner[id], a)
  {
    hide SnapshotBoth, CountBoth, ReleaseBoth, Payout, NetIn, Put, Prize, PotOverflows;
    ListTokens(s.self, s.self, s.core.matches[id], 0, s.docket.winner[id]);
    PayoutGain(s.self, s.core.matches[id], s.docket.winner[id], a);
  }

  lemma ClaimTokens(s: State, id: nat, p: Address)
    requires Claim(s, id, p).Ok? && id in s.core.matches
    ensures AllIn(Claim(s, id, p).value.pays, s.core.matches[id].terms.token)
  {
    ClaimPaysShape(s, id, p);
    hide Claim, ReferralFee, ProtocolFee;
  }

  lemma ResolveTokens(s: State, d: nat)
    requires ResolveDispute(s, d).Ok?
    ensures d in s.docket.disputes && s.docket.disputes[d].matchId in s.core.matches
    ensures AllIn(ResolveDispute(s, d).value.pays, s.core.matches[s.docket.disputes[d].matchId].terms.token)
  {
    hide CountBoth, Payout, PotOverflows;
    var dispute := s.docket.disputes[d];
    ListTokens(s.self, s.self, s.core.matches[dispute.matchId], 0,
      Verdict(dispute, s.docket.winner[dispute.matchId]));
  }

  lemma IncomingBrings(s: State, op: Op, a: Address)
    requires op.DepositStake? || op.RaiseDispute?
    requires Attempt(s, op).Ok? && op.id in s.core.matches && a != s.self && op.who != s.self
    ensures Brings(s, op, a)
  {
    hide Snapshot, Adjust, Put, BondFor, BondRate, DepositFault;
    var e, m := Attempt(s, op).value, s.core.matches[op.id];
    BondExact(s.config.stakes, m.terms.stake);
    NetInTwo(e.pays[0], e.pays[0], a, m.terms.token);
  }

  lemma SilentBrings(s: State, op: Op, a: Address)
    requires op.CreateMatch? || op.SubmitResult? || op.PauseMatch? || op.ResumeMatch? || op.Heartbeat?
             || op.VoteDispute?
    requires Attempt(s, op).Ok?
    ensures Attempt(s, op).value.pays == [] && Gain(s, op, a) == 0
  {
    hide CreateFault, SnapshotBoth, CountBoth, ReleaseBoth, Put, WeightAt;
  }

  lemma IncomingFinds(s: State, op: Op)
    requires op.DepositStake? || op.RaiseDispute? || op.CancelMatch? || op.ExpireMatch?
    requires Attempt(s, op).Ok?
    ensures op.id in s.core.matches
    ensures op.DepositStake? || op.RaiseDispute? ==> Plays(s.core.matches[op.id], op.who)
  {
    hide Snapshot, Adjust, Put, BondFor, BondRate, ReleaseDeposited, RefundDeposited, AtCap, TierAllows;
  }

  lemma PayoutBrings(s: State, op: Op, a: Address)
    requires op.AdminResolve? || op.FinalizeMatch? || op.VoteRollback? || op.ClaimPayout?
    requires Inv(s) && Attempt(s, op).Ok? && a != s.self
    ensures Brings(s, op, a)
  {
    hide Inv, Attempt, Prize, NetIn, AllIn, Ready, Rollback, ResolveStalled, Finalize, Claim;
    match op
    case VoteRollback(id, who, reasonLen) =>
      RollbackAttempt(s, id, who, reasonLen);
      RollbackFinds(s, id, who, reasonLen);
      ReadyAt(s, id);
      RollbackBrings(s, id, who, reasonLen, a);
    case AdminResolve(id, who, winner) =>
      StalledAttempt(s, id, who, winner);
      StalledFinds(s, id, who, winner);
      ReadyAt(s, id);
      StalledBrings(s, id, who, winner, a);
    case FinalizeMatch(id) =>
      FinalizeAttempt(s, id);
      FinalizeFinds(s, id);
      ReadyAt(s, id);
      FinalizeBrings(s, id, a);
    case ClaimPayout(id, who) =>
      ClaimAttempt(s, id, who);
      ClaimShape(s, id, who);
      ReadyAt(s, id);
      ClaimTokens(s, id, who);
      ClaimGain(s, id, who, a);
  }

  lemma CallBrings(s: State, op: Op, a: Address)
    requires Inv(s) && Attempt(s, op).Ok? && a != s.self
    ensures Brings(s, op, a)
  {
    hide Inv, Attempt, Gain, NetIn, AllIn, ResolveDispute;
    match op
    case CancelMatch(id, _) => IncomingFinds(s, op); ReadyAt(s, id); CallOffBrings(s, op, a);
    case ExpireMatch(id) => IncomingFinds(s, op); ReadyAt(s, id); CallOffBrings(s, op, a);
    case DepositStake(id, _) => IncomingFinds(s, op); ReadyAt(s, id); IncomingBrings(s, op, a);
    case RaiseDispute(id, _, _) => IncomingFinds(s, op); ReadyAt(s, id); IncomingBrings(s, op, a);
    case AdminResolve(_, _, _) => PayoutBrings(s, op, a);
    case FinalizeMatch(_) => PayoutBrings(s, op, a);
    case VoteRollback(_, _, _) => PayoutBrings(s, op, a);
    case ClaimPayout(_, _) => PayoutBrings(s, op, a);
    case SettleDispute(d) => ResolveAttempt(s, d); ResolveTokens(s, d); ResolveGain(s, d, a);
    case _ => SilentBrings(s, op, a); NothingBrought(s, op, a);
  }

  lemma NothingBrought(s: State, op: Op, a: Address)
    requires Attempt(s, op).Ok? && Attempt(s, op).value.pays == [] && Gain(s, op, a) == 0
    ensures Brings(s, op, a)
  {
    hide Attempt, Gain;
    NetInNone(a, TokenOf(s, op));
  }

  lemma TransfersProper(s: State, op: Op)
    requires Inv(s) && Legal(s, Call(op)) && Attempt(s, op).Ok?
    ensures Proper(Attempt(s, op).value.pays)
  {
    hide Inv, Attempt, NetIn, Due, Claim;
    if op.ClaimPayout? {
      ClaimAttempt(s, op.id, op.who);
      ClaimShape(s, op.id, op.who);
      ReadyAt(s, op.id);
      Parts(s);
      ClaimSends(s, op.id, op.who, s.self);
    } else {
      CallPays(s, op);
    }
  }

  /** After every successful call every account but the contract's own has, in the token of the match,
      its balance plus its gain, and in every other token its balance. */
  lemma AccountsMove(s: State, op: Op, t: Address, a: Address)
    requires Inv(s) && Legal(s, Call(op)) && Perform(s, op).Ok? && a != s.self
    ensures BalanceOf(Perform(s, op).value.balances, t, a)
            == BalanceOf(s.balances, t, a) + if t == TokenOf(s, op) then Gain(s, op, a) else 0
  {
    hide Inv, Attempt, Gain, NetIn, BalanceOf, Proper, AllIn, PayAll, Legal;
    var ps := Attempt(s, op).value.pays;
    TransfersProper(s, op);
    CallBrings(s, op, a);
    PayAllNet(s.balances, ps, a, t);
    if Target(s, op) in s.core.matches && t != TokenOf(s, op) {
      OtherTokens(ps, a, TokenOf(s, op), t);
    }
    if Target(s, op) !in s.core.matches {
      NetInNone(a, t);
      NoMatchNoGain(s, op, a);
    }
  }

  lemma NoMatchNoGain(s: State, op: Op, a: Address)
    requires Target(s, op) !in s.core.matches
    ensures Gain(s, op, a) == 0
  {
  }
}
