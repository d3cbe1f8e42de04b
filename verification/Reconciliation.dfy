/** The oracle service's reconciliation pass: a paged scan with a persisted cursor that enqueues every
    active match still waiting for a result, and may be interrupted at any write. */
module Reconciliation {
  import opened Prelude

  const PAGE_SIZE: nat := 50
  const MAX_DELAY_SECS: nat := 3_600
  const U64_MAX: nat := 0xFFFF_FFFF_FFFF_FFFF

  datatype Platform = Lichess | ChessDotCom
  datatype ActiveMatch = ActiveMatch(id: nat, game: string, platform: Platform)
  datatype Entry = Entry(
    matchId: nat, game: string, platform: Platform, attempts: nat,
    nextAttemptAt: nat, enqueuedAt: nat, lastError: Option<string>)

  /** What the pass meets: the active list, the matches with a result, those whose lookup fails, the
      dead-lettered ones, and those whose queue write fails. Both kinds of failure are only logged. */
  datatype World = World(
    active: seq<ActiveMatch>, resolved: set<nat>, unreachable: set<nat>, dead: set<nat>, unwritable: set<nat>)

  predicate Wanted(w: World, id: nat) {
    id !in w.unreachable && id !in w.resolved && id !in w.dead && id !in w.unwritable
  }

  function Ids(queue: seq<Entry>): (ids: seq<nat>)
    ensures |ids| == |queue| && forall i :: 0 <= i < |queue| ==> ids[i] == queue[i].matchId
  {
    seq(|queue|, i requires 0 <= i < |queue| => queue[i].matchId)
  }

  /** A new entry, due at once. */
  function NewEntry(m: ActiveMatch, now: nat): Entry {
    Entry(m.id, m.game, m.platform, 0, now, now, None)
  }

  // ----- the uninterrupted pass

  /** Queue ids after scanning `ms` in order. */
  function Scan(w: World, ids: seq<nat>, ms: seq<ActiveMatch>): seq<nat> {
    if ms == [] then ids
    else
      var prev, m := Scan(w, ids, ms[..|ms| - 1]), ms[|ms| - 1];
      if Wanted(w, m.id) && m.id !in prev then prev + [m.id] else prev
  }

  lemma {:induction false} ScanJoin(w: World, ids: seq<nat>, a: seq<ActiveMatch>, b: seq<ActiveMatch>)
    ensures Scan(w, ids, a + b) == Scan(w, Scan(w, ids, a), b)
    decreases |b|
  {
    if b == [] {
      assert a + b == a;
    } else {
      assert (a + b)[..|a + b| - 1] == a + b[..|b| - 1];
      ScanJoin(w, ids, a, b[..|b| - 1]);
    }
  }

  /** `x` is wanted and among the scanned matches. */
  ghost predicate Due(w: World, ms: seq<ActiveMatch>, x: nat) {
    Wanted(w, x) && exists i :: 0 <= i < |ms| && ms[i].id == x
  }

  /** A pass keeps what was queued, in place, and adds exactly the wanted matches. */
  lemma {:induction false} ScanHolds(w: World, ids: seq<nat>, ms: seq<ActiveMatch>)
    ensures ids <= Scan(w, ids, ms)
    ensures forall x :: x in Scan(w, ids, ms) <==> x in ids || Due(w, ms, x)
    decreases |ms|
  {
    if ms != [] {
      var init, m := ms[..|ms| - 1], ms[|ms| - 1];
      ScanHolds(w, ids, init);
      forall x: nat
        ensures Due(w, ms, x) <==> Due(w, init, x) || (Wanted(w, x) && x == m.id)
      {
        if Due(w, init, x) {
          var i :| 0 <= i < |init| && init[i].id == x;
          assert ms[i].id == x;
        }
        if Due(w, ms, x) {
          var i :| 0 <= i < |ms| && ms[i].id == x;
          assert i < |init| ==> init[i].id == x;
        }
        assert ms[|ms| - 1].id == m.id;
      }
    }
  }

  /** Nothing is queued twice. */
  lemma {:induction false} ScanOnce(w: World, ids: seq<nat>, ms: seq<ActiveMatch>)
    requires NoDup(ids)
    ensures NoDup(Scan(w, ids, ms))
    decreases |ms|
  {
    if ms != [] {
      ScanOnce(w, ids, ms[..|ms| - 1]);
    }
  }

  /** Scanning one more match. */
  lemma ScanNext(w: World, ids: seq<nat>, ms: seq<ActiveMatch>, k: nat)
    requires k < |ms|
    ensures var prev := Scan(w, ids, ms[..k]);
      Scan(w, ids, ms[..k + 1]) == if Wanted(w, ms[k].id) && ms[k].id !in prev then prev + [ms[k].id] else prev
  {
    assert ms[..k + 1][..k] == ms[..k];
  }

  /** A match scanned before is not queued again. */
  lemma ScannedBefore(w: World, ids: seq<nat>, ms: seq<ActiveMatch>, k: nat, p: nat)
    requires p < k <= |ms| && Wanted(w, ms[p].id)
    ensures ms[p].id in Scan(w, ids, ms[..k])
  {
    ScanHolds(w, ids, ms[..k]);
    assert ms[..k][p].id == ms[p].id;
    assert Due(w, ms[..k], ms[p].id);
  }

  // ----- the interruptible pass

  /** Existing entries untouched, and every later one new for some active match. */
  ghost predicate Grown(w: World, start: seq<Entry>, queue: seq<Entry>) {
    start <= queue && forall i :: |start| <= i < |queue| ==> NewFor(w, queue[i])
  }

  ghost predicate NewFor(w: World, e: Entry) {
    exists k, now :: 0 <= k < |w.active| && e == NewEntry(w.active[k], now)
  }

  class Poller {
    var queue: seq<Entry>
    var cursor: Option<nat>

    /** Passes begun on queue `start` have scanned exactly the first `k` active matches. */
    ghost predicate Reached(w: World, start: seq<Entry>, k: nat)
      reads this
    {
      && k <= |w.active|
      && (cursor.Some? ==> cursor.value <= k)
      && Grown(w, start, queue)
      && Ids(queue) == Scan(w, Ids(start), w.active[..k])
    }

    /** `PendingQueue::enqueue`: append unless the match is already queued. */
    method Enqueue(m: ActiveMatch, now: nat) returns (added: bool)
      modifies `queue
      ensures added <==> m.id !in Ids(old(queue))
      ensures queue == if added then old(queue) + [NewEntry(m, now)] else old(queue)
    {
      for i := 0 to |queue|
        invariant queue == old(queue) && m.id !in Ids(queue)[..i]
      {
        assert Ids(queue)[..i + 1] == Ids(queue)[..i] + [Ids(queue)[i]];
        if queue[i].matchId == m.id {
          assert Ids(queue)[i] == m.id;
          return false;
        }
      }
      assert Ids(queue)[..|queue|] == Ids(queue);
      queue := queue + [NewEntry(m, now)];
      return true;
    }

    /** One scanned match; a write needs a unit of the budget, which stands for the crash to come. */
    method ScanOne(w: World, k: nat, now: nat, budget: nat, ghost start: seq<Entry>, ghost reached: nat)
      returns (left: nat, crashed: bool, ghost reached': nat)
      requires k < |w.active| && k <= reached && Reached(w, start, reached)
      modifies `queue
      ensures Reached(w, start, reached') && reached <= reached' && budget - 1 <= left <= budget
      ensures !crashed ==> k < reached'
      ensures crashed ==> budget == 0
    {
      var m := w.active[k];
      left, crashed, reached' := budget, false, if k < reached then reached else k + 1;
      ScanNext(w, Ids(start), w.active, k);
      if m.id in w.unreachable || m.id in w.resolved || m.id in w.dead {
        return;
      }
      if k < reached && m.id !in w.unwritable {
        ScannedBefore(w, Ids(start), w.active, reached, k);
      }
      if m.id in w.unwritable {
        // Already queued, or a failed write: the queue stays as it is and the pass goes on.
        return;
      }
      if budget == 0 {
        crashed, reached' := true, reached;
        return;
      }
      left := budget - 1;
      ghost var before := queue;
      var added := Enqueue(m, now);
      if added {
        assert Ids(queue) == Ids(before) + [m.id];
        assert NewFor(w, NewEntry(w.active[k], now));
      }
    }

    /** `reconcile`, interrupted after `budget` writes. Saves at the offsets in `lost` and, if `stuck`,
        the final removal of the cursor fail and are only logged. */
    method Reconcile(w: World, lost: set<nat>, stuck: bool, now: nat, budget: nat, ghost start: seq<Entry>,
                     ghost begun: nat)
      returns (finished: bool, ghost reached: nat)
      requires Reached(w, start, begun)
      modifies this
      ensures Reached(w, start, reached) && begun <= reached
      ensures finished ==> reached == |w.active| && (cursor == None || stuck)
      ensures budget >= Enough(w) ==> finished
    {
      reached := begun;
      var left: nat := budget;
      var offset := if cursor.Some? then cursor.value else 0;
      while true
        invariant offset <= reached && begun <= reached && Reached(w, start, reached)
        invariant budget >= Enough(w) ==> left >= 2 * (|w.active| - offset) + 1
        decreases |w.active| - offset
      {
        var page := if offset + PAGE_SIZE < |w.active| then w.active[offset..offset + PAGE_SIZE]
          else w.active[offset..];
        if page == [] {
          break;
        }
        for i := 0 to |page|
          invariant offset + i <= reached && begun <= reached && Reached(w, start, reached)
          invariant budget >= Enough(w) ==> left >= 2 * (|w.active| - offset) + 1 - i
        {
          var crashed;
          left, crashed, reached := ScanOne(w, offset + i, now, left, start, reached);
          if crashed {
            return false, reached;
          }
        }
        offset := offset + |page|;
        if left == 0 {
          return false, reached;
        }
        left := left - 1;
        if offset !in lost {
          cursor := Some(offset);
        }
        if |page| < PAGE_SIZE {
          break;
        }
      }
      if left == 0 {
        return false, reached;
      }
      if !stuck {
        cursor := None;
      }
      return true, reached;
    }

    /** Restart after every crash until a pass completes; `budgets` says how far each attempt gets and
        the last attempt is not interrupted. */
    method ReconcileWithRestarts(w: World, lost: set<nat>, stuck: bool, times: seq<nat>, budgets: seq<nat>, now: nat)
      requires cursor == None && |times| == |budgets|
      modifies this
      ensures cursor == None || stuck
      ensures Grown(w, old(queue), queue)
      ensures Ids(queue) == Scan(w, Ids(old(queue)), w.active)
    {
      ghost var start, reached := queue, 0;
      assert w.active[..0] == [];
      var finished := false;
      for i := 0 to |budgets|
        invariant Reached(w, start, reached)
        invariant finished ==> reached == |w.active| && (cursor == None || stuck)
      {
        if !finished {
          finished, reached := Reconcile(w, lost, stuck, times[i], budgets[i], start, reached);
        }
      }
      if !finished {
        finished, reached := Reconcile(w, lost, stuck, now, Enough(w), start, reached);
      }
      assert w.active[..|w.active|] == w.active;
    }
  }

  /** More writes than an uninterrupted pass can make. */
  function Enough(w: World): nat {
    2 * |w.active| + 1
  }

  // ----- retries

  function Pow2(n: nat): nat {
    if n == 0 then 1 else 2 * Pow2(n - 1)
  }

  lemma {:induction false} Pow2Grows(n: nat, m: nat)
    requires n <= m
    ensures 1 <= Pow2(n) <= Pow2(m)
  {
    if m > 0 {
      Pow2Grows(if n < m then n else n - 1, m - 1);
    }
  }

  lemma {:induction false} Pow2Large(n: nat)
    ensures n >= 12 ==> Pow2(n) >= 4_096
  {
    if n > 12 {
      Pow2Large(n - 1);
    }
  }

  /** `1u64.checked_shl(exp).unwrap_or(u64::MAX)`. */
  function Multiplier(exp: nat): nat {
    if exp < 64 then Pow2(exp) else U64_MAX
  }

  function SaturatingMul64(a: nat, b: nat): nat {
    if a * b > U64_MAX then U64_MAX else a * b
  }

  /** The back-off as specified, without any integer width. */
  function Backoff(base: nat, attempt: nat): nat
    requires attempt >= 1
  {
    Min(base * Pow2(attempt - 1), MAX_DELAY_SECS)
  }

  lemma MulAtLeast(a: nat, b: nat)
    requires a >= 1
    ensures a * b >= b
  {
  }

  lemma DelayExact(base: nat, exp: nat)
    ensures Min(SaturatingMul64(base, Multiplier(exp)), MAX_DELAY_SECS) == Min(base * Pow2(exp), MAX_DELAY_SECS)
  {
    hide Pow2;
    if exp >= 64 && base > 0 {
      Pow2Large(exp);
      MulAtLeast(base, Pow2(exp));
      MulAtLeast(base, U64_MAX);
    }
  }

  /** `record_failure`: the delay is the unbounded back-off although it is computed in saturating
      64-bit arithmetic, and an entry is exhausted exactly when its attempts reach the limit. */
  method RecordFailure(e: Entry, error: string, base: nat, maxRetries: nat, now: nat) returns (e': Entry,
                       exhausted: bool)
    ensures exhausted <==> e.attempts + 1 >= maxRetries
    ensures e' == e.(attempts := e.attempts + 1, lastError := Some(error),
                     nextAttemptAt := if exhausted then e.nextAttemptAt else now + Backoff(base, e.attempts + 1))
  {
    e' := e.(attempts := e.attempts + 1, lastError := Some(error));
    if e'.attempts >= maxRetries {
      return e', true;
    }
    var exp := e'.attempts - 1;
    DelayExact(base, exp);
    var delay := Min(SaturatingMul64(base, Multiplier(exp)), MAX_DELAY_SECS);
    e' := e'.(nextAttemptAt := now + delay);
    return e', false;
  }

  /** Delays never shrink from one attempt to the next and stay within an hour. */
  lemma BackoffGrows(base: nat, attempt: nat)
    requires attempt >= 1
    ensures Backoff(base, attempt) <= Backoff(base, attempt + 1) <= MAX_DELAY_SECS
  {
    Pow2Grows(attempt - 1, attempt);
    assert base * Pow2(attempt - 1) <= base * Pow2(attempt);
  }
}
