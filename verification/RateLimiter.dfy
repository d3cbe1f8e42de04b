/** The sliding-window submission limiter: one anchored window, its roll-forward and its estimate. */
module RateLimiter {
  import opened Prelude
  import opened Arithmetic

  const HOURLY_SECS: nat := 3_600
  const DAILY_SECS: nat := 86_400

  datatype Window = Window(start: nat, current: U32, previous: U32)

  /** The roll-forward applied when a stored window is read at time `now`. */
  function Load(stored: Option<Window>, now: nat, span: nat): Window {
    var w := if stored.Some? then stored.value else Window(now, 0, 0);
    var elapsed := SatSub(now, w.start);
    if elapsed >= span + span then Window(now, 0, 0)
    else if elapsed >= span then Window(w.start + span, 0, w.current)
    else w
  }

  /** floor(count * overlap / span): the previous count scaled to the part still in the lookback. */
  function Weighted(count: nat, overlap: nat, span: nat): (r: nat)
    requires overlap <= span && span > 0
    ensures r <= count
  {
    WeightedBound(count, overlap, span);
    count * overlap / span
  }

  lemma WeightedBound(count: nat, overlap: nat, span: nat)
    requires overlap <= span && span > 0
    ensures 0 <= count * overlap / span <= count
  {
    MulMonotone(count, overlap, span);
    MulMonotone(span, 0, count);
    DivBounds(count * overlap, span);
    DivMonotone(count * overlap, count * span, span);
    DivUnique(count * span, span, count);
  }

  lemma WeightedMonotone(count: nat, x: nat, y: nat, span: nat)
    requires x <= y <= span && span > 0
    ensures Weighted(count, x, span) <= Weighted(count, y, span)
  {
    MulMonotone(count, x, y);
    DivMonotone(count * x, count * y, span);
  }

  /** Current count plus the previous count weighted by its overlap with the lookback period. */
  function Estimate(now: nat, w: Window, span: nat): nat
    requires span > 0
  {
    var elapsed := if SatSub(now, w.start) < span then SatSub(now, w.start) else span;
    SatAdd32(w.current, Weighted(w.previous, span - elapsed, span))
  }

  function EstimateAt(stored: Option<Window>, now: nat, span: nat): nat
    requires span > 0
  {
    Estimate(now, Load(stored, now, span), span)
  }

  /** One admission test for `count` submissions; `None` is a refusal. A total beyond 32 bits passes
      the saturating comparison with the largest limit but traps in the checked sum that follows it,
      which rolls the submission back all the same. */
  function Admit(stored: Option<Window>, now: nat, count: nat, limit: nat, span: nat): Option<Window>
    requires span > 0
  {
    var w := Load(stored, now, span);
    var used := Estimate(now, w, span);
    if SatAdd32(used, count) > limit || used + count > U32_MAX then None
    else Some(w.(current := SatAdd32(w.current, count)))
  }

  // ----- the estimate between submissions

  /** Without new submissions the estimate never grows, across rollover and reset too. */
  lemma EstimateNeverGrows(stored: Option<Window>, t: nat, u: nat, span: nat)
    requires span > 0 && t <= u
    ensures EstimateAt(stored, u, span) <= EstimateAt(stored, t, span)
  {
    if stored.Some? {
      var w := stored.value;
      var et, eu := SatSub(t, w.start), SatSub(u, w.start);
      if eu < span {
        WeightedMonotone(w.previous, span - eu, span - et, span);
      } else if span <= et && eu < span + span {
        WeightedMonotone(w.current, span - (eu - span), span - (et - span), span);
      }
    }
  }

  /** Storing the window rolled forward at an intermediate time does not change a later estimate. */
  lemma TwoStepRoll(stored: Option<Window>, t: nat, u: nat, span: nat)
    requires span > 0 && t <= u
    ensures EstimateAt(Some(Load(stored, t, span)), u, span) == EstimateAt(stored, u, span)
  {
  }

  // ----- runs

  /** A request to record `count` submissions at `time`. */
  datatype Request = Request(time: nat, count: nat)

  ghost predicate Ordered(reqs: seq<Request>) {
    forall i, j :: 0 <= i < j < |reqs| ==> reqs[i].time <= reqs[j].time
  }

  /** The stored window after a run; a refused request leaves it unchanged. */
  function After(reqs: seq<Request>, limit: nat, span: nat): Option<Window>
    requires span > 0
  {
    if reqs == [] then None
    else
      var before := After(reqs[..|reqs| - 1], limit, span);
      var q := reqs[|reqs| - 1];
      var r := Admit(before, q.time, q.count, limit, span);
      if r.Some? then r else before
  }

  /** Submissions admitted by a run in the closed time interval [lo, hi]. */
  function AdmittedWithin(reqs: seq<Request>, lo: int, hi: int, limit: nat, span: nat): nat
    requires span > 0
  {
    if reqs == [] then 0
    else
      var before := reqs[..|reqs| - 1];
      var q := reqs[|reqs| - 1];
      var added := if Admit(After(before, limit, span), q.time, q.count, limit, span).Some? then q.count else 0;
      AdmittedWithin(before, lo, hi, limit, span) + if lo <= q.time <= hi then added else 0
  }

  /** What a stored window says about the run behind it. */
  ghost predicate Accounts(reqs: seq<Request>, limit: nat, span: nat)
    requires span > 0
  {
    var w := After(reqs, limit, span);
    if w.None? then
      forall lo: int, hi: int :: AdmittedWithin(reqs, lo, hi, limit, span) == 0
    else
      var s := w.value.start;
      && w.value.current <= limit
      && (reqs != [] ==> s <= reqs[|reqs| - 1].time)
      && forall lo: int, hi: int ::
           var a := AdmittedWithin(reqs, lo, hi, limit, span);
           && (lo >= s + span ==> a == 0)
           && (lo >= s ==> a <= w.value.current)
           && (lo >= s - span ==> a <= limit + w.value.current)
           && (hi <= lo + span ==> a <= 2 * limit)
  }

  lemma {:induction false} RunAccounts(reqs: seq<Request>, limit: nat, span: nat)
    requires span > 0 && Ordered(reqs)
    ensures Accounts(reqs, limit, span)
    decreases |reqs|
  {
    if reqs != [] {
      var before := reqs[..|reqs| - 1];
      RunAccounts(before, limit, span);
      StepAccounts(before, reqs[|reqs| - 1], limit, span);
      assert reqs == before + [reqs[|reqs| - 1]];
    }
  }

  /** An admitted request adds its count to the rolled window, which stays within the limit. */
  lemma Admitted(stored: Option<Window>, now: nat, count: nat, limit: nat, span: nat)
    requires span > 0 && Admit(stored, now, count, limit, span).Some?
    ensures var w := Load(stored, now, span);
      w.current + count <= limit && Admit(stored, now, count, limit, span) == Some(w.(current := w.current + count))
  {
  }

  lemma StepAccounts(before: seq<Request>, q: Request, limit: nat, span: nat)
    requires span > 0 && Ordered(before + [q])
    requires Accounts(before, limit, span)
    ensures Accounts(before + [q], limit, span)
  {
    var reqs := before + [q];
    assert reqs[..|reqs| - 1] == before;
    assert before != [] ==> before[|before| - 1] == reqs[|before| - 1];
    var prior := After(before, limit, span);
    var r := Admit(prior, q.time, q.count, limit, span);
    if r.Some? {
      Admitted(prior, q.time, q.count, limit, span);
    }
    hide Admit;
    forall lo: int, hi: int
      ensures AdmittedWithin(reqs, lo, hi, limit, span) ==
        AdmittedWithin(before, lo, hi, limit, span) + if r.Some? && lo <= q.time <= hi then q.count else 0
    {
    }
  }

  /** Any interval no longer than one span holds at most 2 * limit admitted submissions, and
      everything admitted since the anchor of the live window is at most the limit. */
  lemma WindowBound(reqs: seq<Request>, lo: int, hi: int, limit: nat, span: nat)
    requires span > 0 && Ordered(reqs)
    ensures hi <= lo + span ==> AdmittedWithin(reqs, lo, hi, limit, span) <= 2 * limit
    ensures var w := After(reqs, limit, span);
      w.Some? && lo >= w.value.start ==> AdmittedWithin(reqs, lo, hi, limit, span) <= limit
  {
    RunAccounts(reqs, limit, span);
  }

  /** The factor two is attained: an empty request anchors the window, then one full quota lands at
      its last second and another one span later. */
  lemma WindowBoundAttained(limit: nat, span: nat)
    requires limit < span <= U32_MAX
    ensures var reqs := [Request(0, 0), Request(span - 1, limit), Request(span + span - 1, limit)];
      Ordered(reqs) && AdmittedWithin(reqs, span - 1, span + span - 1, limit, span) == 2 * limit
  {
    var r0, r1, r2 := Request(0, 0), Request(span - 1, limit), Request(span + span - 1, limit);
    var w0, w1, w2 := Window(0, 0, 0), Window(0, limit, 0), Window(span, limit, limit);
    assert Admit(None, 0, 0, limit, span) == Some(w0) && Admit(Some(w0), span - 1, limit, limit, span) == Some(w1);
    assert Weighted(limit, 1, span) == 0 by { DivUnique(limit * 1, span, 0); }
    assert Admit(Some(w1), span + span - 1, limit, limit, span) == Some(w2);
    hide Admit;
    assert [r0, r1, r2][..2] == [r0, r1] && [r0, r1][..1] == [r0] && [r0][..0] == [];
    assert After([r0], limit, span) == Some(w0);
    assert After([r0, r1], limit, span) == Some(w1);
    assert AdmittedWithin([r0], span - 1, span + span - 1, limit, span) == 0;
    assert AdmittedWithin([r0, r1], span - 1, span + span - 1, limit, span) == limit;
  }

  // ----- what exactly is admitted

  lemma {:induction false} Split(reqs: seq<Request>, lo: int, mid: int, hi: int, limit: nat, span: nat)
    requires span > 0 && lo <= mid <= hi + 1
    ensures AdmittedWithin(reqs, lo, hi, limit, span)
            == AdmittedWithin(reqs, lo, mid - 1, limit, span) + AdmittedWithin(reqs, mid, hi, limit, span)
    decreases |reqs|
  {
    hide Admit;
    if reqs != [] {
      Split(reqs[..|reqs| - 1], lo, mid, hi, limit, span);
    }
  }

  /** No request is later than `now`. */
  ghost predicate Until(reqs: seq<Request>, now: int) {
    forall i :: 0 <= i < |reqs| ==> reqs[i].time <= now
  }

  lemma {:induction false} Nothing(reqs: seq<Request>, lo: int, hi: int, now: int, limit: nat, span: nat)
    requires span > 0 && Until(reqs, now) && (lo > now || lo > hi)
    ensures AdmittedWithin(reqs, lo, hi, limit, span) == 0
    decreases |reqs|
  {
    hide Admit;
    if reqs != [] {
      Nothing(reqs[..|reqs| - 1], lo, hi, now, limit, span);
    }
  }

  /** The stored window counts exactly what the run admitted since its anchor and in the span before. */
  ghost predicate Exact(reqs: seq<Request>, now: nat, limit: nat, span: nat)
    requires span > 0
  {
    var w := After(reqs, limit, span);
    if w.None? then forall lo: int, hi: int :: AdmittedWithin(reqs, lo, hi, limit, span) == 0
    else CountsOf(reqs, w.value, now, limit, span) && w.value.start <= now
         && AdmittedWithin(reqs, w.value.start + span, now, limit, span) == 0
  }

  ghost predicate CountsOf(reqs: seq<Request>, w: Window, now: nat, limit: nat, span: nat)
    requires span > 0
  {
    && w.current == AdmittedWithin(reqs, w.start, now, limit, span)
    && w.previous == AdmittedWithin(reqs, w.start - span, w.start - 1, limit, span)
  }

  lemma RollExact(reqs: seq<Request>, now: nat, limit: nat, span: nat)
    requires span > 0 && Until(reqs, now) && Exact(reqs, now, limit, span)
    ensures var w := Load(After(reqs, limit, span), now, span);
      w.start <= now < w.start + span && CountsOf(reqs, w, now, limit, span)
  {
    hide AdmittedWithin, After;
    var stored := After(reqs, limit, span);
    if stored.Some? {
      var s := stored.value.start;
      if now - s >= span + span {
        Split(reqs, s + span, now - span, now, limit, span);
        Split(reqs, now - span, now, now, limit, span);
      } else if now - s >= span {
        Split(reqs, s, s + span, now, limit, span);
      }
    }
  }

  lemma WaitExact(reqs: seq<Request>, now: nat, later: nat, limit: nat, span: nat)
    requires span > 0 && Until(reqs, now) && now <= later && Exact(reqs, now, limit, span)
    ensures Until(reqs, later) && Exact(reqs, later, limit, span)
  {
    hide AdmittedWithin, After;
    var stored := After(reqs, limit, span);
    if stored.Some? {
      var s := stored.value.start;
      Nothing(reqs, now + 1, later, now, limit, span);
      Split(reqs, s, now + 1, later, limit, span);
      if s + span <= now + 1 {
        Split(reqs, s + span, now + 1, later, limit, span);
      } else {
        Nothing(reqs, s + span, later, now, limit, span);
      }
    }
  }

  lemma OneMore(before: seq<Request>, q: Request, lo: int, hi: int, limit: nat, span: nat)
    requires span > 0
    ensures AdmittedWithin(before + [q], lo, hi, limit, span) == AdmittedWithin(before, lo, hi, limit, span) +
      if lo <= q.time <= hi && Admit(After(before, limit, span), q.time, q.count, limit, span).Some? then q.count else 0
    ensures After(before + [q], limit, span) ==
      var r := Admit(After(before, limit, span), q.time, q.count, limit, span);
      if r.Some? then r else After(before, limit, span)
  {
    hide Admit;
    assert (before + [q])[..|before|] == before;
  }

  lemma AdmitExact(before: seq<Request>, q: Request, limit: nat, span: nat)
    requires span > 0 && Until(before, q.time) && Exact(before, q.time, limit, span)
    requires Admit(After(before, limit, span), q.time, q.count, limit, span).Some?
    ensures Exact(before + [q], q.time, limit, span)
  {
    hide Admit, Load, AdmittedWithin, After, Estimate;
    var w := Load(After(before, limit, span), q.time, span);
    RollExact(before, q.time, limit, span);
    Admitted(After(before, limit, span), q.time, q.count, limit, span);
    Nothing(before, w.start + span, q.time, q.time, limit, span);
    OneMore(before, q, w.start, q.time, limit, span);
    OneMore(before, q, w.start - span, w.start - 1, limit, span);
    OneMore(before, q, w.start + span, q.time, limit, span);
  }

  lemma RefuseExact(before: seq<Request>, q: Request, limit: nat, span: nat)
    requires span > 0 && Exact(before, q.time, limit, span)
    requires Admit(After(before, limit, span), q.time, q.count, limit, span).None?
    ensures Exact(before + [q], q.time, limit, span)
  {
    hide Admit, Load;
    var reqs := before + [q];
    assert reqs[..|reqs| - 1] == before;
    assert forall lo: int, hi: int ::
      AdmittedWithin(reqs, lo, hi, limit, span) == AdmittedWithin(before, lo, hi, limit, span);
  }

  lemma {:induction false} RunExact(reqs: seq<Request>, now: nat, limit: nat, span: nat)
    requires span > 0 && Ordered(reqs) && Until(reqs, now)
    ensures Exact(reqs, now, limit, span)
    decreases |reqs|
  {
    hide Exact, Admit;
    if reqs == [] {
      EmptyExact(now, limit, span);
    } else {
      var before, q := reqs[..|reqs| - 1], reqs[|reqs| - 1];
      RunExact(before, q.time, limit, span);
      assert reqs == before + [q];
      if Admit(After(before, limit, span), q.time, q.count, limit, span).Some? {
        AdmitExact(before, q, limit, span);
      } else {
        RefuseExact(before, q, limit, span);
      }
      WaitExact(reqs, q.time, now, limit, span);
    }
  }

  lemma EmptyExact(now: nat, limit: nat, span: nat)
    requires span > 0
    ensures Exact([], now, limit, span)
  {
  }

  lemma AdmitIff(stored: Option<Window>, now: nat, count: nat, limit: nat, span: nat)
    requires span > 0
    requires var w := Load(stored, now, span); w.start <= now < w.start + span
    ensures var w := Load(stored, now, span);
      var used := w.current + Weighted(w.previous, w.start + span - now, span);
      Admit(stored, now, count, limit, span).Some? <==> Min(used, U32_MAX) + count <= Min(limit, U32_MAX)
  {
    hide Load, Weighted;
  }

  /** A request is admitted exactly when it fits the sliding estimate: what was admitted since the
      anchor of the window, which is less than one span old, plus the floored share of what was admitted
      in the span before that still lies in the lookback. */
  lemma SlidingExact(before: seq<Request>, q: Request, limit: nat, span: nat)
    requires span > 0 && Ordered(before + [q])
    ensures var anchor := Load(After(before, limit, span), q.time, span).start;
      && anchor <= q.time < anchor + span
      && var recent := AdmittedWithin(before, anchor, q.time, limit, span);
         var earlier := AdmittedWithin(before, anchor - span, anchor - 1, limit, span);
         var used := recent + earlier * (anchor + span - q.time) / span;
         Admit(After(before, limit, span), q.time, q.count, limit, span).Some? <==>
         Min(used, U32_MAX) + q.count <= Min(limit, U32_MAX)
  {
    hide AdmittedWithin, After, Load, Exact, Admit;
    AllEarlier(before, q);
    RunExact(before, q.time, limit, span);
    RollExact(before, q.time, limit, span);
    AdmitIff(After(before, limit, span), q.time, q.count, limit, span);
  }

  lemma AllEarlier(before: seq<Request>, q: Request)
    requires Ordered(before + [q])
    ensures Ordered(before) && Until(before, q.time)
  {
    assert forall i :: 0 <= i < |before| ==> (before + [q])[i] == before[i];
    assert (before + [q])[|before|] == q;
  }
}
