/** Consequences of the surplus law for whole runs and for single matches, and the inputs on which a
    claim does lower the surplus. */
module EscrowSolvency {
  import opened Prelude
  import opened EscrowModel
  import opened EscrowInvariants
  import opened EscrowRuns
  import opened EscrowMoney

  // ----- runs without a dispute period

  /** Results settle at once and the protocol fee is never negative. */
  ghost predicate Immediate(c: Config) {
    c.disputePeriod == 0 && FeeSound(c)
  }

  lemma WinnerStays(s: State, op: Op)
    requires Inv(s) && s.config.disputePeriod == 0 && Attempt(s, op).Ok?
    ensures Attempt(s, op).value.docket.winner == s.docket.winner
  {
    hide Inv, WeightAt, BondFor, BondRate, Payout, PotOverflows, Verdict, SnapshotBoth, CountBoth, ReleaseBoth;
    if !op.SubmitResult? && !op.RaiseDispute? && !op.VoteDispute? && !op.SettleDispute? {
      NoNewDispute(s, op);
    }
  }

  lemma {:induction false} NothingDocketed(trace: seq<State>, events: seq<Event>, n: nat)
    requires Run(trace, events) && Inv(trace[0]) && n < |trace| && trace[0].docket.winner == map[]
    requires forall i :: 0 <= i < |trace| ==> Immediate(trace[i].config)
    ensures trace[n].docket.winner == map[]
  {
    hide Inv, Attempt, PayAll, Legal;
    if n > 0 {
      NothingDocketed(trace, events, n - 1);
      RunKeeps(trace, events, n - 1);
      var s, e := trace[n - 1], events[n - 1];
      if e.Call? && Perform(s, e.op).Ok? {
        WinnerStays(s, e.op);
      }
    }
  }

  /** Without a dispute period and with a non-negative fee cap, the contract's balance covers in every
      state of a run, and in every token, the deposits of open matches and the unclaimed parts of
      settled ones, by the same margin as at the start. */
  lemma ImmediateRunsAreSolvent(trace: seq<State>, events: seq<Event>, n: nat, t: Address)
    requires Run(trace, events) && Inv(trace[0]) && n < |trace| && trace[0].docket.winner == map[]
    requires forall i :: 0 <= i < |trace| ==> Immediate(trace[i].config)
    ensures Surplus(trace[n], t) == Surplus(trace[0], t)
    ensures Surplus(trace[0], t) >= 0 ==>
      BalanceOf(trace[n].balances, t, trace[n].self) >= DueAll(trace[n].core, trace[n].docket, t)
  {
    hide Inv, Step, Legal, DueAll, Perform;
    forall i | 0 <= i < n
      ensures FairClaim(trace[i], events[i], t)
    {
      NothingDocketed(trace, events, i);
      assert Immediate(trace[i].config);
    }
    RunSurplus(trace, events, n, t);
  }

  // ----- single matches

  /** What a step moves in and out on behalf of match `id`, in that match's token. */
  function NetFor(s: State, e: Event, id: nat, t: Address): int {
    if e.Call? && Perform(s, e.op).Ok? && Target(s, e.op) == id then NetIn(Attempt(s, e.op).value.pays, s.self, t)
      else 0
  }

  function NetSoFar(trace: seq<State>, events: seq<Event>, id: nat, t: Address, n: nat): int
    requires n <= |events| && |trace| == |events| + 1
  {
    if n == 0 then 0 else NetSoFar(trace, events, id, t, n - 1) + NetFor(trace[n - 1], events[n - 1], id, t)
  }

  lemma DueStep(s: State, e: Event, id: nat, t: Address)
    requires Inv(s) && Legal(s, e) && FairClaim(s, e, t)
    ensures var s' := Step(s, e);
      Due(s'.core, s'.docket, id, t) == Due(s.core, s.docket, id, t) + NetFor(s, e, id, t)
  {
    hide Inv, Due, Attempt, PayAll, Target, Local, OthersSame, NetIn, Gap, FairClaim;
    if e.Call? && Perform(s, e.op).Ok? {
      CallLocal(s, e.op);
      LocalOthers(s, Attempt(s, e.op).value, Target(s, e.op));
      GapSign(s, e, t);
      CallMoves(s, e.op, t);
      if Target(s, e.op) != id {
        DueElsewhere(s, Attempt(s, e.op).value, Target(s, e.op), id, t);
      }
    }
  }

  lemma DueNonNegative(s: State, id: nat, t: Address)
    requires Inv(s)
    ensures Due(s.core, s.docket, id, t) >= 0
  {
    if id in s.core.matches {
      ReadyAt(s, id);
      if id in s.docket.byMatch {
        assert DisputeOk(s.docket, s.core.matches, s.docket.byMatch[id]);
      }
    }
  }

  /** No match pays out more than was paid into it: what went in less what went out is exactly what
      is still owed on it. */
  lemma {:induction false} MatchConservation(trace: seq<State>, events: seq<Event>, id: nat, t: Address, n: nat)
    requires Run(trace, events) && Inv(trace[0]) && n < |trace| && id !in trace[0].core.matches
    requires forall i :: 0 <= i < n ==> FairClaim(trace[i], events[i], t)
    ensures NetSoFar(trace, events, id, t, n) == Due(trace[n].core, trace[n].docket, id, t) >= 0
  {
    hide Inv, Step, Legal, Due, FairClaim, NetFor;
    RunKeeps(trace, events, n);
    DueNonNegative(trace[n], id, t);
    if n > 0 {
      MatchConservation(trace, events, id, t, n - 1);
      RunKeeps(trace, events, n - 1);
      DueStep(trace[n - 1], events[n - 1], id, t);
    } else {
      AbsentDue(trace[0].core, trace[0].docket, id, t);
    }
  }

  // ----- a solvent contract pays

  /** Every transfer goes out of `self` in token `t`. */
  ghost predicate Outgoing(ps: seq<Pay>, self: Address, t: Address) {
    forall i :: 0 <= i < |ps| ==> ps[i].token == t && ps[i].src == self && ps[i].dst != self
  }

  ghost predicate NonNegative(ps: seq<Pay>) {
    forall i :: 0 <= i < |ps| ==> ps[i].amount >= 0
  }

  lemma {:induction false} OutgoingTotal(ps: seq<Pay>, self: Address, t: Address)
    requires Outgoing(ps, self, t) && NonNegative(ps)
    ensures NetIn(ps, self, t) <= 0
    decreases |ps|
  {
    if ps != [] {
      OutgoingTotal(ps[1..], self, t);
    }
  }

  /** Outgoing transfers go through exactly when none is negative, provided the balance covers them. */
  lemma {:induction false} PaidExactly(b: Balances, ps: seq<Pay>, self: Address, t: Address)
    requires Outgoing(ps, self, t) && BalanceOf(b, t, self) + NetIn(ps, self, t) >= 0
    ensures NonNegative(ps) ==> PayAll(b, ps).Some?
    ensures PayAll(b, ps).Some? ==> NonNegative(ps)
    decreases |ps|
  {
    hide BalanceOf;
    if ps != [] {
      var p := ps[0];
      if NonNegative(ps) {
        OutgoingTotal(ps[1..], self, t);
      }
      var moved := Transfer(b, p.token, p.src, p.dst, p.amount);
      if moved.Some? {
        PaidExactly(moved.value, ps[1..], self, t);
      }
    }
  }

  /** A non-negative surplus means that the balance covers what is owed on any single match. */
  lemma Covered(s: State, id: nat, t: Address)
    requires Inv(s) && id in s.core.matches && Surplus(s, t) >= 0
    ensures BalanceOf(s.balances, t, s.self) >= Due(s.core, s.docket, id, t)
  {
    hide Inv, Due;
    var dues: map<nat, int> := DueBy(s.core, s.docket, t);
    forall k | k in dues
      ensures dues[k] >= 0
    {
      DueNonNegative(s, k, t);
    }
    MapSumNonNegative(dues);
    assert id in dues && dues[id] == Due(s.core, s.docket, id, t);
    assert dues[id] <= MapSum(dues) && MapSum(dues) == DueAll(s.core, s.docket, t);
  }

  lemma BondNonNegative(s: State, id: nat)
    requires Inv(s)
    ensures BondHeld(s.docket, id) >= 0
  {
    if id in s.docket.byMatch {
      assert DisputeOk(s.docket, s.core.matches, s.docket.byMatch[id]);
    }
  }

  /** In particular the deposits of an open match and a bond held for it. */
  lemma OpenCovered(s: State, id: nat)
    requires Inv(s) && id in s.core.matches && !Terminal(s.core.matches[id].state)
    requires Surplus(s, s.core.matches[id].terms.token) >= 0
    ensures var m := s.core.matches[id];
      BalanceOf(s.balances, m.terms.token, s.self) >= Deposits(m) + BondHeld(s.docket, id) >= Deposits(m)
    ensures TermsOk(s.core.matches[id].terms, s.self) && s.config.fees.treasury != s.self
  {
    Covered(s, id, s.core.matches[id].terms.token);
    BondNonNegative(s, id);
    ReadyAt(s, id);
    hide Surplus, BondHeld;
  }

  lemma RefundShape(self: Address, treasury: Address, m: Match, fee: int)
    requires TermsOk(m.terms, self) && treasury != self && 0 <= fee <= m.terms.stake
    ensures var ps := RefundDeposited(self, treasury, m, fee); Outgoing(ps, self, m.terms.token) && NonNegative(ps)
  {
  }

  lemma PayoutShape(self: Address, m: Match, winner: Winner)
    requires TermsOk(m.terms, self)
    ensures Outgoing(Payout(self, m, winner), self, m.terms.token) && NonNegative(Payout(self, m, winner))
  {
  }

  lemma RefundPaid(s: State, id: nat, m: Match, fee: int)
    requires Inv(s) && id in s.core.matches && !Terminal(s.core.matches[id].state)
    requires m.terms == s.core.matches[id].terms && Deposits(m) == Deposits(s.core.matches[id])
    requires Surplus(s, m.terms.token) >= 0 && 0 <= fee <= m.terms.stake
    ensures PayAll(s.balances, RefundDeposited(s.self, s.config.fees.treasury, m, fee)).Some?
  {
    hide Inv, Surplus, BondHeld, NetIn, RefundDeposited, PayAll;
    OpenCovered(s, id);
    RefundAllNet(s, m, fee, m.terms.token);
    RefundShape(s.self, s.config.fees.treasury, m, fee);
    PaidExactly(s.balances, RefundDeposited(s.self, s.config.fees.treasury, m, fee), s.self, m.terms.token);
  }

  lemma PayoutPaid(s: State, id: nat, winner: Winner)
    requires Inv(s) && id in s.core.matches && !Terminal(s.core.matches[id].state) && Funded(s.core.matches[id])
    requires Surplus(s, s.core.matches[id].terms.token) >= 0 && winner != NoWinner
    ensures PayAll(s.balances, Payout(s.self, s.core.matches[id], winner)).Some?
  {
    hide Inv, Surplus, BondHeld, NetIn, Payout, PayAll;
    var m := s.core.matches[id];
    OpenCovered(s, id);
    PayoutNet(s, m, winner, m.terms.token);
    PayoutShape(s.self, m, winner);
    PaidExactly(s.balances, Payout(s.self, m, winner), s.self, m.terms.token);
  }

  lemma ResolutionPaid(s: State, d: nat)
    requires Inv(s) && ResolveDispute(s, d).Ok?
    requires Surplus(s, s.core.matches[s.docket.disputes[d].matchId].terms.token) >= 0
    ensures PayAll(s.balances, ResolveDispute(s, d).value.pays).Some?
  {
    hide Surplus, NetIn, CountersOk, WithinCap, LogOk, MatchesOk, VoteSum, CountBoth, Payout, PayAll;
    var dispute := s.docket.disputes[d];
    var id := dispute.matchId;
    var m, winner := s.core.matches[id], Verdict(dispute, s.docket.winner[id]);
    assert DisputeOk(s.docket, s.core.matches, d);
    OpenCovered(s, id);
    ReadyAt(s, id);
    var payout, ps := Payout(s.self, m, winner), ResolveDispute(s, d).value.pays;
    var last := ps[|ps| - 1];
    assert ps == payout + [last];
    PayoutNet(s, m, winner, m.terms.token);
    NetInConcat(payout, [last], s.self, m.terms.token);
    NetInTwo(last, last, s.self, m.terms.token);
    PayoutShape(s.self, m, winner);
    PaidExactly(s.balances, ps, s.self, m.terms.token);
  }

  lemma IncomingPaid(b: Balances, p: Pay)
    requires 0 <= p.amount <= BalanceOf(b, p.token, p.src)
    ensures PayAll(b, [p]).Some?
  {
    assert [p][1..] == [];
  }

  /** The token a call moves. */
  function TokenOf(s: State, op: Op): Address {
    var id := Target(s, op);
    if id in s.core.matches then s.core.matches[id].terms.token else s.self
  }

  /** With a non-negative surplus, a refund, an admin payout, a finalisation or a dispute resolution
      that passes its checks is never stopped by a failing transfer, nor is any other call but a claim. */
  lemma PayoutsSucceed(s: State, op: Op)
    requires Inv(s) && Attempt(s, op).Ok? && !op.ClaimPayout?
    requires Target(s, op) in s.core.matches ==> Surplus(s, TokenOf(s, op)) >= 0
    ensures Perform(s, op).Ok?
  {
    hide Inv, Surplus, PayAll, RefundDeposited, Payout, ReleaseDeposited, SnapshotDeposited, SnapshotBoth, CountBoth,
      ReleaseBoth,
      ResolveDispute, SettledNow, SettledLater, PotOverflows, AtCap, TierAllows, CreateFault, WeightAt, BondRate;
    var id := Target(s, op);
    if id in s.core.matches {
      ReadyAt(s, id);
    }
    PaysNothing(s.balances);
    match op
    case DepositStake(_, who) => IncomingPaid(s.balances, Attempt(s, op).value.pays[0]);
    case RaiseDispute(_, who, _) => IncomingPaid(s.balances, Attempt(s, op).value.pays[0]);
    case CancelMatch(_, _) => CancelPaid(s, id);
    case ExpireMatch(_) => RefundPaid(s, id, s.core.matches[id], 0);
    case VoteRollback(_, who, _) => RefundPaid(s, id, Consent(s.core.matches[id], who), 0);
    case AdminResolve(_, _, winner) => PayoutPaid(s, id, winner);
    case FinalizeMatch(_) => PayoutPaid(s, id, s.docket.winner[id]);
    case SettleDispute(d) => ResolveFinds(s, d); DisputeReady(s, d); ResolutionPaid(s, d);
    case SubmitResult(_, winner, who) => SettleSilent(s, id, winner);
    case _ =>
  }

  lemma PaysNothing(b: Balances)
    ensures PayAll(b, []) == Some(b)
  {
  }

  lemma SettleSilent(s: State, id: nat, winner: Winner)
    requires id in s.core.matches
    ensures SettledNow(s, id, winner).pays == [] && SettledLater(s, id, winner).pays == []
  {
  }

  lemma CancelPaid(s: State, id: nat)
    requires Inv(s) && id in s.core.matches && s.core.matches[id].state == Pending
    requires Surplus(s, s.core.matches[id].terms.token) >= 0
    ensures var m := s.core.matches[id];
      PayAll(s.balances, RefundDeposited(s.self, s.config.fees.treasury, m,
        m.terms.stake * s.config.fees.cancelBps / 10_000)).Some?
  {
    hide Surplus, PayAll, RefundDeposited, MatchesOk, DocketOk, CountersOk, WithinCap, LogOk;
    var m := s.core.matches[id];
    ReadyAt(s, id);
    FeeWithin(m.terms.stake, s.config.fees.cancelBps);
    RefundPaid(s, id, m, m.terms.stake * s.config.fees.cancelBps / 10_000);
  }

  lemma FeeWithin(stake: int, bps: nat)
    requires stake >= 0 && bps <= 10_000
    ensures 0 <= stake * bps / 10_000 <= stake
  {
    assert stake * bps <= stake * 10_000;
  }

  // ----- claims

  /** The share a claim takes is still owed on its match. */
  lemma ClaimCovered(s: State, id: nat, p: Address)
    requires Inv(s) && Claim(s, id, p).Ok? && id in s.core.matches && id !in s.docket.winner
    requires s.core.matches[id].winner == Draw || FeeSound(s.config)
    requires Surplus(s, s.core.matches[id].terms.token) >= 0
    ensures var t := s.core.matches[id].terms.token;
      BalanceOf(s.balances, t, s.self) + NetIn(Claim(s, id, p).value.pays, s.self, t) >= 0
  {
    var m := s.core.matches[id];
    ReadyAt(s, id);
    Parts(s);
    ClaimShape(s, id, p);
    ClaimPaysShape(s, id, p);
    ClaimSends(s, id, p, m.terms.token);
    Covered(s, id, m.terms.token);
    BondNonNegative(s, id);
    FeeSigns(s.config, m, 2 * m.terms.stake);
    hide Inv, Claim, Surplus, NetIn, ReferralFee, ProtocolFee, MatchesOk, DocketOk, BondHeld, BalanceOf;
    assert Due(s.core, s.docket, id, m.terms.token) >= if m.winner == Draw then m.terms.stake else 2 * m.terms.stake;
  }

  lemma ClaimPaysOutgoing(self: Address, recipient: Address, m: Match, p: Address, referral: int, protocol: int)
    requires TermsOk(m.terms, self) && p != self && recipient != self
    ensures var ps := ClaimPays(self, recipient, m, p, referral, protocol);
      Outgoing(ps, self, m.terms.token) && (NonNegative(ps) <==> referral + protocol <= 2 * m.terms.stake)
  {
    var ps := ClaimPays(self, recipient, m, p, referral, protocol);
    assert ps[0].amount == 2 * m.terms.stake - referral - protocol;
  }

  /** All transfers of a claim go out, and none is negative exactly when the net payout is not. */
  lemma ClaimOutgoing(s: State, id: nat, p: Address)
    requires Inv(s) && Claim(s, id, p).Ok? && id in s.core.matches
    ensures var m, ps := s.core.matches[id], Claim(s, id, p).value.pays;
      && Outgoing(ps, s.self, m.terms.token)
      && (NonNegative(ps) <==> m.winner == Draw || FeesFit(s.config, m))
  {
    var m := s.core.matches[id];
    ReadyAt(s, id);
    Parts(s);
    ClaimShape(s, id, p);
    ClaimPaysShape(s, id, p);
    hide Inv, Claim, ReferralFee, ProtocolFee, MatchesOk, DocketOk, ClaimPays, Share, Put, Snapshot, Claimed;
    if m.winner != Draw {
      var pot := 2 * m.terms.stake;
      ClaimPaysOutgoing(s.self, s.config.fees.recipient, m, p, ReferralFee(s.config, m, pot).value,
        ProtocolFee(s.config, pot).value);
    }
  }

  /** The referral and protocol fees together do not exceed the pot. */
  predicate FeesFit(c: Config, m: Match) {
    var pot := 2 * m.terms.stake;
    var referral, protocol := ReferralFee(c, m, pot), ProtocolFee(c, pot);
    referral.Some? && protocol.Some? && referral.value + protocol.value <= pot
  }

  /** A claim that passes its checks, on a match settled at once and with a sound fee, goes through
      exactly when the match was a draw or the two fees together do not exceed the pot. */
  lemma ClaimSucceedsExactly(s: State, id: nat, p: Address)
    requires Inv(s) && Claim(s, id, p).Ok? && id in s.core.matches && id !in s.docket.winner
    requires s.core.matches[id].winner == Draw || FeeSound(s.config)
    requires Surplus(s, s.core.matches[id].terms.token) >= 0
    ensures Perform(s, ClaimPayout(id, p)).Ok? <==>
      s.core.matches[id].winner == Draw || FeesFit(s.config, s.core.matches[id])
  {
    hide Inv, Claim, Attempt, Surplus, NetIn, FeesFit, FeeSound, PayAll;
    ClaimCovered(s, id, p);
    ClaimOutgoing(s, id, p);
    ClaimAttempt(s, id, p);
    PaidExactly(s.balances, Claim(s, id, p).value.pays, s.self, s.core.matches[id].terms.token);
  }

  /** Over every run without a dispute period and with a non-negative fee cap that starts with a
      non-negative surplus, no call but a claim ever ends in a failing transfer, and a claim does so
      exactly when referral and protocol fee exceed the pot. */
  lemma ImmediateRunsPay(trace: seq<State>, events: seq<Event>, n: nat, op: Op)
    requires Run(trace, events) && Inv(trace[0]) && n < |trace| && trace[0].docket.winner == map[]
    requires forall i :: 0 <= i < |trace| ==> Immediate(trace[i].config)
    requires Attempt(trace[n], op).Ok?
    requires Target(trace[n], op) in trace[n].core.matches ==> Surplus(trace[0], TokenOf(trace[n], op)) >= 0
    ensures !op.ClaimPayout? ==> Perform(trace[n], op).Ok?
    ensures op.ClaimPayout? ==>
      op.id in trace[n].core.matches &&
      var m := trace[n].core.matches[op.id];
      Perform(trace[n], op).Ok? <==> m.winner == Draw || FeesFit(trace[n].config, m)
  {
    hide Inv, Step, Legal, Surplus, Claim, FeesFit, Perform;
    RunKeeps(trace, events, n);
    ImmediateRunsAreSolvent(trace, events, n, TokenOf(trace[n], op));
    NothingDocketed(trace, events, n);
    if op.ClaimPayout? {
      ClaimAttempt(trace[n], op.id, op.who);
      ClaimShape(trace[n], op.id, op.who);
      ClaimSucceedsExactly(trace[n], op.id, op.who);
    } else {
      PayoutsSucceed(trace[n], op);
    }
  }
}
