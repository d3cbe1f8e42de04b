/** The incrementally kept escrow balance of a player against the sum it stands for. */
module PlayerCounter {
  import opened Prelude
  import opened EscrowModel
  import opened EscrowInvariants
  import opened EscrowRuns

  /** The stake of `p` in match `id` while that match is open. */
  function OpenStake(c: Core, id: nat, p: Address): int {
    if id in c.matches && HasDeposit(c.matches[id], p) && !Terminal(c.matches[id].state) then c.matches[id].terms.stake
      else 0
  }

  /** The simple sum: the stakes of all open matches the player has paid into. */
  ghost function OpenTotal(c: Core, p: Address): int {
    MapSum(map id | id in c.matches :: OpenStake(c, id, p))
  }

  /** The player has a deposit in a finished match that was never taken off the counter. */
  ghost predicate HasStranded(c: Core, d: Docket, p: Address) {
    exists id :: id in c.matches && HasDeposit(c.matches[id], p) && Stranded(c.matches[id], d, id)
  }

  /** A pointwise larger map with a strictly larger entry has a larger sum. */
  lemma {:induction false} MapSumCompare<K>(a: map<K, int>, b: map<K, int>)
    requires a.Keys == b.Keys && forall k :: k in a ==> a[k] <= b[k]
    ensures MapSum(a) <= MapSum(b)
    ensures MapSum(a) == MapSum(b) <==> a == b
    decreases |a|
  {
    if a == map[] {
      assert b == map[];
    } else {
      var k :| k in a;
      MapSumRemove(a, k);
      MapSumRemove(b, k);
      MapSumCompare(a - {k}, b - {k});
      if a - {k} == b - {k} && a[k] == b[k] {
        forall x | x in a
          ensures a[x] == b[x]
        {
          if x != k { assert (a - {k})[x] == (b - {k})[x]; }
        }
        assert a == b;
      }
    }
  }

  lemma HeldVersusOpen(s: State, id: nat, p: Address)
    requires Inv(s) && id in s.core.matches
    ensures OpenStake(s.core, id, p) <= Held(s.core, s.docket, id, p)
    ensures OpenStake(s.core, id, p) == Held(s.core, s.docket, id, p) <==>
      !(HasDeposit(s.core.matches[id], p) && Stranded(s.core.matches[id], s.docket, id))
  {
    ReadyAt(s, id);
  }

  /** In every consistent state the counter is at least the simple sum, and equal to it exactly when
      none of the player's deposits is stranded in a finished match. */
  lemma CounterExact(s: State, p: Address)
    requires Inv(s)
    ensures Lookup(s.core.counter, p, 0) >= OpenTotal(s.core, p)
    ensures Lookup(s.core.counter, p, 0) == OpenTotal(s.core, p) <==> !HasStranded(s.core, s.docket, p)
  {
    hide MapSum, Held, OpenStake, Stranded, HasDeposit, MatchesOk, DocketOk, WithinCap, LogOk;
    var open, held := map id | id in s.core.matches :: OpenStake(s.core, id, p), HeldBy(s.core, s.docket, p);
    forall id | id in s.core.matches
      ensures open[id] <= held[id]
      ensures open[id] == held[id] <==>
        !(HasDeposit(s.core.matches[id], p) && Stranded(s.core.matches[id], s.docket, id))
    {
      HeldVersusOpen(s, id, p);
    }
    MapSumCompare(open, held);
    assert OpenTotal(s.core, p) == MapSum(open);
    if open == held {
      assert !HasStranded(s.core, s.docket, p);
    }
  }

  // ----- runs that strand nothing

  /** The calls that finish a match without releasing its stakes. */
  predicate Strands(e: Event) {
    e.Call? && (e.op.VoteRollback? || e.op.AdminResolve? || e.op.SettleDispute?)
  }

  ghost predicate NoneStranded(c: Core, d: Docket) {
    forall id :: id in c.matches ==> !Stranded(c.matches[id], d, id)
  }

  lemma SettledNotStranded(s: State, id: nat, winner: Winner)
    requires Ready(s, id) && Live(s.core.matches[id].state)
    ensures var e := SettledNow(s, id, winner); id in e.core.matches && !Stranded(e.core.matches[id], e.docket, id)
    ensures var e := SettledLater(s, id, winner); id in e.core.matches && !Stranded(e.core.matches[id], e.docket, id)
  {
    hide SnapshotBoth, CountBoth, ReleaseBoth;
    var m := s.core.matches[id];
    var m1 := Settled(m, winner, s.time);
    var m2 := m1.(timing := m1.timing.(completedAt := Some(s.ledger)));
    SnapshotFrames(Put(s.core, id, m2), m, s.ledger);
    ReleaseBothSpec(CountBoth(Put(s.core, id, m2), m), m);
    SnapshotFrames(ReleaseBoth(CountBoth(Put(s.core, id, m2), m), m), m, s.ledger);
    SnapshotFrames(Put(s.core, id, m1.(state := PendingResult)), m, s.ledger);
  }

  lemma CallOffNotStranded(s: State, id: nat)
    requires Ready(s, id) && s.core.matches[id].state == Pending
    ensures var m := s.core.matches[id];
      var c := ReleaseDeposited(Put(s.core, id, CalledOff(m, s.ledger)), m, s.ledger);
      id in c.matches && !Stranded(c.matches[id], s.docket, id)
  {
    hide ReleaseDeposited;
    var m := s.core.matches[id];
    ReleaseDepositedSpec(Put(s.core, id, CalledOff(m, s.ledger)), m, s.ledger);
  }

  lemma FinalizedNotStranded(s: State, id: nat)
    requires Ready(s, id) && Finalize(s, id).Ok?
    ensures var e := Finalize(s, id).value; id in e.core.matches && !Stranded(e.core.matches[id], e.docket, id)
  {
    hide SnapshotBoth, CountBoth, ReleaseBoth, Payout, PotOverflows;
    var m := s.core.matches[id];
    var c1 := Put(s.core, id, m.(state := Completed, timing := m.timing.(completedAt := Some(s.ledger))));
    ReleaseBothSpec(c1, m);
    SnapshotFrames(ReleaseBoth(c1, m), m, s.ledger);
    SnapshotFrames(CountBoth(ReleaseBoth(c1, m), m), m, s.ledger);
  }

  lemma ClaimedNotStranded(s: State, id: nat, p: Address)
    requires Claim(s, id, p).Ok? && id in s.core.matches && !Stranded(s.core.matches[id], s.docket, id)
    ensures var e := Claim(s, id, p).value; id in e.core.matches && !Stranded(e.core.matches[id], e.docket, id)
  {
    ClaimShape(s, id, p);
  }

  lemma DepositedNotStranded(s: State, id: nat, p: Address)
    requires Ready(s, id) && Deposit(s, id, p).Ok?
    ensures var e := Deposit(s, id, p).value; id in e.core.matches && !Stranded(e.core.matches[id], e.docket, id)
  {
    hide AtCap, TierAllows;
  }

  lemma DisputedNotStranded(s: State, id: nat, p: Address, hashOk: bool)
    requires OpenDispute(s, id, p, hashOk).Ok?
    ensures var e := OpenDispute(s, id, p, hashOk).value;
      id in e.core.matches && !Stranded(e.core.matches[id], e.docket, id)
  {
    hide BondFor, BondRate;
  }

  lemma TargetNotStranded(s: State, op: Op)
    requires Inv(s) && Attempt(s, op).Ok? && !Strands(Call(op)) && NoneStranded(s.core, s.docket)
    ensures var e, id := Attempt(s, op).value, Target(s, op);
      id in e.core.matches && !Stranded(e.core.matches[id], e.docket, id)
  {
    hide Inv, Ready, SettledNow, SettledLater, ReleaseDeposited, CalledOff, RefundDeposited, Finalize, Claim, Deposit,
      OpenDispute,
      WeightAt, CreateFault;
    var id := Target(s, op);
    if id in s.core.matches {
      ReadyAt(s, id);
    }
    match op
    case SubmitResult(_, winner, _) => SettledNotStranded(s, id, winner);
    case CancelMatch(_, _) => CallOffNotStranded(s, id);
    case ExpireMatch(_) => CallOffNotStranded(s, id);
    case ClaimPayout(_, who) => ClaimShape(s, id, who); ClaimedNotStranded(s, id, who);
    case FinalizeMatch(_) => FinalizeFinds(s, id); FinalizedNotStranded(s, id);
    case DepositStake(_, who) => DepositOnce(s, id, who); DepositedNotStranded(s, id, who);
    case RaiseDispute(_, who, hashOk) => DisputedNotStranded(s, id, who, hashOk);
    case _ =>
  }

  lemma StepStrandsNothing(s: State, e: Event)
    requires Inv(s) && Legal(s, e) && !Strands(e) && NoneStranded(s.core, s.docket)
    ensures NoneStranded(Step(s, e).core, Step(s, e).docket)
  {
    hide Inv, Attempt, PayAll, Target, Local, OthersSame, Stranded;
    if e.Call? && Perform(s, e.op).Ok? {
      var f, id := Attempt(s, e.op).value, Target(s, e.op);
      CallLocal(s, e.op);
      LocalOthers(s, f, id);
      Updated(s, f, id);
      TargetNotStranded(s, e.op);
      forall k | k in f.core.matches
        ensures !Stranded(f.core.matches[k], f.docket, k)
      {
        if k != id {
          StrandedElsewhere(s, f, id, k);
        }
      }
    }
  }

  lemma StrandedElsewhere(s: State, e: Effect, id: nat, k: nat)
    requires OthersSame(s, e, id) && k != id && k in s.core.matches && k in e.core.matches
    ensures Stranded(e.core.matches[k], e.docket, k) == Stranded(s.core.matches[k], s.docket, k)
  {
    assert Get(e.docket.byMatch, k) == Get(s.docket.byMatch, k);
  }

  lemma {:induction false} RunStrandsNothing(trace: seq<State>, events: seq<Event>, n: nat)
    requires Run(trace, events) && Inv(trace[0]) && NoneStranded(trace[0].core, trace[0].docket) && n < |trace|
    requires forall i :: 0 <= i < n ==> !Strands(events[i])
    ensures NoneStranded(trace[n].core, trace[n].docket)
  {
    hide Inv, Step, Legal, NoneStranded, Strands;
    if n > 0 {
      RunStrandsNothing(trace, events, n - 1);
      RunKeeps(trace, events, n - 1);
      StepStrandsNothing(trace[n - 1], events[n - 1]);
    }
  }

  /** Over every run without a rollback, an admin resolution or a dispute resolution, the stored
      counter is the sum of the player's stakes in open matches. */
  lemma CounterIsSum(trace: seq<State>, events: seq<Event>, n: nat, p: Address)
    requires Run(trace, events) && Inv(trace[0]) && trace[0].core.matches == map[] && n < |trace|
    requires forall i :: 0 <= i < n ==> !Strands(events[i])
    ensures Lookup(trace[n].core.counter, p, 0) == OpenTotal(trace[n].core, p)
  {
    hide Inv, Step, Legal, Strands, OpenTotal, Stranded, HasDeposit;
    RunStrandsNothing(trace, events, n);
    RunKeeps(trace, events, n);
    CounterExact(trace[n], p);
  }
}
