/** The bounded snapshot ring against the unbounded log of a player's escrow balance, and the vote
    weights read from it. */
module BalanceHistory {
  import opened Prelude
  import opened EscrowModel
  import opened EscrowInvariants
  import opened EscrowRuns

  // ----- the ring

  datatype Slot = Slot(index: nat, ledger: nat, balance: int)

  /** The stored form: how many snapshots there were, and the slots of the newest 32. */
  datatype Ring = Ring(count: nat, slots: map<nat, Slot>)

  const EMPTY_RING := Ring(0, map[])

  /** The ring holds the newest 32 entries of the log, each in the slot of its index. */
  ghost predicate RingOk(ring: Ring, log: seq<Snap>) {
    && ring.count == |log|
    && forall i :: 0 <= i < |log| && |log| <= i + MAX_SNAPSHOTS ==> Stored(ring, log, i)
  }

  ghost predicate Stored(ring: Ring, log: seq<Snap>, i: nat)
    requires i < |log|
  {
    i % MAX_SNAPSHOTS in ring.slots && ring.slots[i % MAX_SNAPSHOTS] == Slot(i, log[i].ledger, log[i].balance)
  }

  function Record(ring: Ring, snap: Snap): Ring {
    Ring(ring.count + 1, ring.slots[ring.count % MAX_SNAPSHOTS := Slot(ring.count, snap.ledger, snap.balance)])
  }

  lemma DistinctSlots(i: nat, n: nat)
    requires i < n < i + MAX_SNAPSHOTS
    ensures i % MAX_SNAPSHOTS != n % MAX_SNAPSHOTS
  {
  }

  /** Recording a snapshot keeps the ring in step with the log: only an entry that has just fallen
      out of the newest 32 is overwritten. */
  lemma RecordKeepsRing(ring: Ring, log: seq<Snap>, snap: Snap)
    requires RingOk(ring, log)
    ensures RingOk(Record(ring, snap), log + [snap])
  {
    var ring', log' := Record(ring, snap), log + [snap];
    forall i | 0 <= i < |log'| && |log'| <= i + MAX_SNAPSHOTS
      ensures Stored(ring', log', i)
    {
      if i < |log| {
        assert Stored(ring, log, i);
        DistinctSlots(i, |log|);
      }
    }
  }

  // ----- reading the ring

  datatype BalanceAt = Known(balance: int) | NoHistory | Pruned

  /** The answer of the unbounded log, as far as the newest 32 entries can give it. */
  function LoggedBalance(log: seq<Snap>, t: nat): BalanceAt {
    var n := NewestAt(log, t);
    if Retained(log, n) then Known(log[n - 1].balance)
    else if |log| > MAX_SNAPSHOTS then Pruned
    else NoHistory
  }

  /** What each answer means: Known is the newest entry of the full log at or before the query,
      NoHistory says the full log has none, Pruned that entries were dropped and all others are later. */
  lemma HistoryAnswers(log: seq<Snap>, t: nat)
    ensures LoggedBalance(log, t).Known? <==>
      exists i :: 0 <= i < |log| && |log| <= i + MAX_SNAPSHOTS && log[i].ledger <= t
    ensures forall i :: 0 <= i < |log| && log[i].ledger <= t && LoggedBalance(log, t).Known? ==>
      i < NewestAt(log, t) && LoggedBalance(log, t).balance == log[NewestAt(log, t) - 1].balance
    ensures LoggedBalance(log, t).NoHistory? <==>
      |log| <= MAX_SNAPSHOTS && forall i :: 0 <= i < |log| ==> log[i].ledger > t
    ensures LoggedBalance(log, t).Pruned? <==>
      |log| > MAX_SNAPSHOTS && forall i :: |log| - MAX_SNAPSHOTS <= i < |log| ==> log[i].ledger > t
  {
    hide NewestAt;
    var n := NewestAt(log, t);
    if n > 0 {
      assert log[n - 1].ledger <= t;
    }
  }

  lemma NewestUnique(log: seq<Snap>, t: nat, n: nat)
    requires n <= |log| && (n > 0 ==> log[n - 1].ledger <= t)
    requires forall i :: n <= i < |log| ==> log[i].ledger > t
    ensures NewestAt(log, t) == n
  {
    hide NewestAt;
    var k := NewestAt(log, t);
  }

  /** `get_balance_at_timestamp`: the walk over the ring gives the log's answer. */
  method GetBalanceAtTimestamp(ring: Ring, t: nat, ghost log: seq<Snap>) returns (r: BalanceAt)
    requires RingOk(ring, log)
    ensures r == LoggedBalance(log, t)
  {
    hide NewestAt;
    if ring.count == 0 {
      NewestUnique(log, t, 0);
      return NoHistory;
    }
    var available := if ring.count < MAX_SNAPSHOTS then ring.count else MAX_SNAPSHOTS;
    var start := SatSub(ring.count, available);
    var cursor := ring.count;
    while cursor > start
      invariant start <= cursor <= |log|
      invariant forall i :: cursor <= i < |log| ==> log[i].ledger > t
    {
      cursor := SatSub(cursor, 1);
      assert Stored(ring, log, cursor);
      var slot := cursor % MAX_SNAPSHOTS;
      if slot in ring.slots {
        var snap := ring.slots[slot];
        if snap.index != cursor {
          continue;
        }
        if snap.ledger <= t {
          NewestUnique(log, t, cursor + 1);
          return Known(snap.balance);
        }
      }
    }
    if start > 0 {
      return Pruned;
    } else {
      NewestUnique(log, t, 0);
      return NoHistory;
    }
  }

  /** The walk of `vote_on_dispute` over the same ring. */
  method SnapshotWeight(ring: Ring, snapshotLedger: nat, minLedger: nat, ghost log: seq<Snap>) returns (w: Option<int>)
    requires RingOk(ring, log) && minLedger <= snapshotLedger
    ensures w == WeightAt(log, minLedger)
  {
    hide NewestAt;
    var i := 0;
    var retained := if ring.count < MAX_SNAPSHOTS then ring.count else MAX_SNAPSHOTS;
    while i < retained
      invariant 0 <= i <= retained
      invariant forall k :: |log| - i <= k < |log| ==> log[k].ledger > minLedger
    {
      var idx := SatSub(ring.count, i + 1);
      assert Stored(ring, log, idx);
      var slot := idx % MAX_SNAPSHOTS;
      if slot in ring.slots {
        var snap := ring.slots[slot];
        if snap.ledger <= snapshotLedger {
          if snap.ledger <= minLedger {
            NewestUnique(log, minLedger, idx + 1);
            return Some(snap.balance);
          }
        }
      }
      i := i + 1;
    }
    assert NewestAt(log, minLedger) + MAX_SNAPSHOTS <= |log| || NewestAt(log, minLedger) == 0;
    return None;
  }

  // ----- frozen weights

  /** Snapshots later than `t` never change the weight at `t`; they can only push it out of the ring. */
  lemma LaterSnapshotsFreeze(log: seq<Snap>, more: seq<Snap>, t: nat)
    requires forall i :: 0 <= i < |more| ==> more[i].ledger > t
    ensures WeightAt(log + more, t) == WeightAt(log, t) || WeightAt(log + more, t) == None
    ensures WeightAt(log, t).Some? ==>
      (WeightAt(log + more, t).None? <==> NewestAt(log, t) + MAX_SNAPSHOTS <= |log| + |more|)
  {
    hide NewestAt;
    NewestUnique(log + more, t, NewestAt(log, t));
  }

  /** One more snapshot leaves the weight alone or drops it, whatever balance it carries, exactly when
      it is later than the ledger the weight is read at. */
  lemma FrozenExact(log: seq<Snap>, ledger: nat, t: nat)
    ensures ledger > t <==>
      forall b: int ::
        WeightAt(log + [Snap(ledger, b)], t) == WeightAt(log, t) || WeightAt(log + [Snap(ledger, b)], t) == None
  {
    hide NewestAt;
    if ledger > t {
      forall b: int
        ensures WeightAt(log + [Snap(ledger, b)], t) == WeightAt(log, t) || WeightAt(log + [Snap(ledger, b)], t) == None
      {
        LaterSnapshotsFreeze(log, [Snap(ledger, b)], t);
      }
    } else {
      var b := if WeightAt(log, t) == Some(1) then 2 else 1;
      NewestUnique(log + [Snap(ledger, b)], t, |log| + 1);
      assert WeightAt(log + [Snap(ledger, b)], t) == Some(b);
    }
  }

  /** For a dispute raised at `ledger`, snapshots taken from then on leave every weight alone or drop it
      exactly when the hold duration is positive. */
  lemma HoldFreezesExactly(ledger: nat, hold: nat)
    requires ledger >= 1
    ensures hold >= 1 <==>
      forall log: seq<Snap>, more: seq<Snap> {:trigger WeightAt(log + more, SatSub(ledger, hold))} ::
      (forall i :: 0 <= i < |more| ==> more[i].ledger >= ledger) ==>
        WeightAt(log + more, SatSub(ledger, hold)) == WeightAt(log, SatSub(ledger, hold))
        || WeightAt(log + more, SatSub(ledger, hold)) == None
  {
    var t := SatSub(ledger, hold);
    if hold >= 1 {
      forall log: seq<Snap>, more: seq<Snap> | forall i :: 0 <= i < |more| ==> more[i].ledger >= ledger
        ensures WeightAt(log + more, t) == WeightAt(log, t) || WeightAt(log + more, t) == None
      {
        LaterSnapshotsFreeze(log, more, t);
      }
    } else {
      var log, more := [Snap(ledger, 40)], [Snap(ledger, 90)];
      NewestUnique(log, t, 1);
      NewestUnique(log + more, t, 2);
      assert WeightAt(log, t) == Some(40) && WeightAt(log + more, t) == Some(90);
    }
  }

  // ----- logs over a run

  /** `log'` extends `log` with snapshots taken at `ledger` or later. */
  ghost predicate Extends(log: seq<Snap>, log': seq<Snap>, ledger: nat) {
    && |log| <= |log'| && log'[..|log|] == log
    && forall i :: |log| <= i < |log'| ==> log'[i].ledger >= ledger
  }

  lemma StepLog(s: State, e: Event, p: Address)
    requires Inv(s) && Legal(s, e)
    ensures Extends(Lookup(s.core.log, p, []), Lookup(Step(s, e).core.log, p, []), s.ledger)
    ensures Step(s, e).ledger >= s.ledger
  {
    hide Inv, Attempt, PayAll;
    if e.Call? && Perform(s, e.op).Ok? {
      CallLogs(s, e.op);
      var c, c' := s.core, Step(s, e).core;
      assert Grown(Lookup(c.log, p, []), Lookup(c'.log, p, []), Snap(s.ledger, Lookup(c'.counter, p, 0)));
    }
  }

  lemma {:induction false} RunLog(trace: seq<State>, events: seq<Event>, p: Address, i: nat, j: nat)
    requires Run(trace, events) && Inv(trace[0]) && i <= j < |trace|
    ensures Extends(Lookup(trace[i].core.log, p, []), Lookup(trace[j].core.log, p, []), trace[i].ledger)
    ensures trace[j].ledger >= trace[i].ledger
    decreases j
  {
    hide Inv, Step, Legal;
    if i < j {
      RunLog(trace, events, p, i, j - 1);
      RunKeeps(trace, events, j - 1);
      StepLog(trace[j - 1], events[j - 1], p);
      var a, b, c := Lookup(trace[i].core.log, p, []), Lookup(trace[j - 1].core.log, p, []), Lookup(trace[j].core.log,
        p, []);
      assert c[..|a|] == c[..|b|][..|a|];
      forall k | |a| <= k < |c|
        ensures c[k].ledger >= trace[i].ledger
      {
        if k < |b| { assert c[k] == c[..|b|][k]; }
      }
    }
  }
}
