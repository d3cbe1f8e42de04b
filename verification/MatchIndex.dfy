/** The per-state lists of match ids, kept sorted, against the filtered match map. */
module MatchIndex {
  import opened Prelude
  import opened EscrowModel

  type Index = map<MatchState, seq<nat>>

  ghost predicate Ascending(ids: seq<nat>) {
    forall i, j :: 0 <= i < j < |ids| ==> ids[i] < ids[j]
  }

  /** Exactly the matches in state `st`, in ascending order. */
  ghost predicate Lists(ids: seq<nat>, matches: map<nat, Match>, st: MatchState) {
    Ascending(ids) && forall id :: id in ids <==> id in matches && matches[id].state == st
  }

  ghost predicate IndexOk(index: Index, matches: map<nat, Match>) {
    forall st: MatchState :: Lists(Lookup(index, st, []), matches, st)
  }

  lemma AscendingSnoc(ids: seq<nat>, x: nat)
    requires Ascending(ids) && forall y :: y in ids ==> y < x
    ensures Ascending(ids + [x])
  {
    forall i | 0 <= i < |ids|
      ensures ids[i] < x
    {
      assert ids[i] in ids;
    }
  }

  /** Everything before position `i` of an ascending list is smaller than what is there. */
  lemma PrefixBelow(ids: seq<nat>, i: nat)
    requires Ascending(ids) && i < |ids|
    ensures forall y :: y in ids[..i] ==> y < ids[i]
  {
  }

  // ----- the two loops

  /** `add_match_to_index` on one list: a sorted insert. */
  method SortedInsert(ids: seq<nat>, id: nat) returns (sorted: seq<nat>)
    requires Ascending(ids)
    ensures Ascending(sorted) && forall x :: x in sorted <==> x in ids || x == id
  {
    if id in ids {
      return ids;
    }
    sorted := [];
    var inserted := false;
    for i := 0 to |ids|
      invariant Ascending(sorted)
      invariant forall x :: x in sorted <==> x in ids[..i] || (inserted && x == id)
      invariant !inserted ==> forall y :: y in ids[..i] ==> y < id
      invariant inserted && i < |ids| ==> id < ids[i]
    {
      assert ids[..i + 1] == ids[..i] + [ids[i]];
      assert ids[i] in ids;
      PrefixBelow(ids, i);
      if !inserted && id < ids[i] {
        AscendingSnoc(sorted, id);
        sorted := sorted + [id];
        inserted := true;
      }
      AscendingSnoc(sorted, ids[i]);
      sorted := sorted + [ids[i]];
    }
    assert ids[..|ids|] == ids;
    if !inserted {
      AscendingSnoc(sorted, id);
      sorted := sorted + [id];
    }
  }

  /** `remove_match_from_index` on one list. */
  method Strike(ids: seq<nat>, id: nat) returns (remaining: seq<nat>)
    requires Ascending(ids)
    ensures Ascending(remaining) && forall x :: x in remaining <==> x in ids && x != id
  {
    remaining := [];
    for i := 0 to |ids|
      invariant Ascending(remaining)
      invariant forall x :: x in remaining <==> x in ids[..i] && x != id
    {
      assert ids[..i + 1] == ids[..i] + [ids[i]];
      PrefixBelow(ids, i);
      if ids[i] != id {
        AscendingSnoc(remaining, ids[i]);
        remaining := remaining + [ids[i]];
      }
    }
    assert ids[..|ids|] == ids;
  }

  // ----- the reference filter

  /** The ids below `n` of matches in state `st`, in ascending order. */
  function Filtered(matches: map<nat, Match>, st: MatchState, n: nat): seq<nat> {
    if n == 0 then []
    else Filtered(matches, st, n - 1) + if n - 1 in matches && matches[n - 1].state == st then [n - 1] else []
  }

  lemma {:induction false} FilteredLists(matches: map<nat, Match>, st: MatchState, n: nat)
    ensures Ascending(Filtered(matches, st, n))
    ensures forall id :: id in Filtered(matches, st, n) <==> id < n && id in matches && matches[id].state == st
  {
    if n > 0 {
      FilteredLists(matches, st, n - 1);
      AscendingSnoc(Filtered(matches, st, n - 1), n - 1);
    }
  }

  /** The last element is the largest, and the others are the elements before it. */
  lemma LastIsLargest(ids: seq<nat>)
    requires Ascending(ids) && ids != []
    ensures Ascending(ids[..|ids| - 1])
    ensures ids[|ids| - 1] in Elems(ids)
    ensures forall y :: y in Elems(ids) ==> y <= ids[|ids| - 1]
    ensures Elems(ids[..|ids| - 1]) == Elems(ids) - {ids[|ids| - 1]}
  {
    PrefixBelow(ids, |ids| - 1);
    assert ids == ids[..|ids| - 1] + [ids[|ids| - 1]];
  }

  lemma NoElems(ids: seq<nat>)
    ensures Elems(ids) == {} <==> ids == []
  {
    assert ids != [] ==> ids[0] in Elems(ids);
  }

  lemma {:induction false} AscendingUnique(a: seq<nat>, b: seq<nat>)
    requires Ascending(a) && Ascending(b) && Elems(a) == Elems(b)
    ensures a == b
    decreases |a|
  {
    hide Ascending, Elems;
    NoElems(a);
    NoElems(b);
    if a != [] {
      LastIsLargest(a);
      LastIsLargest(b);
      assert a[|a| - 1] == b[|b| - 1];
      AscendingUnique(a[..|a| - 1], b[..|b| - 1]);
      assert a == a[..|a| - 1] + [a[|a| - 1]] && b == b[..|b| - 1] + [b[|b| - 1]];
    }
  }

  /** The stored list of a state is the filter over the whole match map. */
  lemma IndexIsFilter(index: Index, matches: map<nat, Match>, st: MatchState, n: nat)
    requires IndexOk(index, matches) && forall id :: id in matches ==> id < n
    ensures Lookup(index, st, []) == Filtered(matches, st, n)
  {
    FilteredLists(matches, st, n);
    assert Elems(Lookup(index, st, [])) == Elems(Filtered(matches, st, n));
    AscendingUnique(Lookup(index, st, []), Filtered(matches, st, n));
  }

  // ----- pages

  function Slice(ids: seq<nat>, offset: nat, limit: nat): seq<nat> {
    var start := if offset < |ids| then offset else |ids|;
    var end := if start + limit < |ids| then start + limit else |ids|;
    ids[start..end]
  }

  function Resolve(matches: map<nat, Match>, ids: seq<nat>): seq<Match>
    requires forall i :: 0 <= i < |ids| ==> ids[i] in matches
  {
    seq(|ids|, i requires 0 <= i < |ids| => matches[ids[i]])
  }

  /** `collect_matches_by_state_paginated`. A stored list is no longer than a u32 can count. */
  method CollectPage(index: Index, matches: map<nat, Match>, st: MatchState, offset: nat,
                     limit: nat) returns (page: seq<Match>)
    requires IndexOk(index, matches) && |Lookup(index, st, [])| <= U32_MAX
    ensures forall i :: 0 <= i < |Slice(Lookup(index, st, []), offset, limit)| ==>
      Slice(Lookup(index, st, []), offset, limit)[i] in matches
    ensures page == Resolve(matches, Slice(Lookup(index, st, []), offset, limit))
  {
    var ids := Lookup(index, st, []);
    assert Lists(ids, matches, st);
    page := [];
    if limit == 0 {
      return;
    }
    var start := if offset < |ids| then offset else |ids|;
    var end := SatAdd32(start, limit);
    end := if end < |ids| then end else |ids|;
    for i := start to end
      invariant |page| == i - start
      invariant forall k :: start <= k < i ==> ids[k] in matches && page[k - start] == matches[ids[k]]
    {
      assert ids[i] in ids;
      if ids[i] in matches {
        var m := matches[ids[i]];
        if m.state == st {
          page := page + [m];
        }
      }
    }
    assert forall i :: 0 <= i < |Slice(ids, offset, limit)| ==> Slice(ids, offset, limit)[i] == ids[start + i];
  }

  /** Consecutive pages join without a gap or a repeat. */
  lemma PagesJoin(ids: seq<nat>, offset: nat, a: nat, b: nat)
    ensures Slice(ids, offset, a) + Slice(ids, offset + a, b) == Slice(ids, offset, a + b)
  {
  }

  /** The first `k` pages of size `limit`. */
  function Pages(ids: seq<nat>, limit: nat, k: nat): seq<nat> {
    if k == 0 then [] else Pages(ids, limit, k - 1) + Slice(ids, (k - 1) * limit, limit)
  }

  lemma SliceFromStart(ids: seq<nat>, n: nat)
    ensures Slice(ids, 0, 0) == []
    ensures n >= |ids| ==> Slice(ids, 0, n) == ids
  {
  }

  /** Reading page after page gives the whole list, as soon as the pages cover it. */
  lemma {:induction false} PagesCover(ids: seq<nat>, limit: nat, k: nat)
    ensures Pages(ids, limit, k) == Slice(ids, 0, k * limit)
    ensures k * limit >= |ids| ==> Pages(ids, limit, k) == ids
  {
    hide Slice;
    SliceFromStart(ids, k * limit);
    if k > 0 {
      PagesCover(ids, limit, k - 1);
      PagesJoin(ids, 0, (k - 1) * limit, limit);
    }
  }
}
