/** Shared vocabulary: results, addresses, integer widths, finite sums and the token ledger. */
module Prelude {

  datatype Option<+T> = None | Some(value: T)

  /** An entry point either commits or, on `Err`, leaves every storage entry as it was. */
  datatype Result<+T, +E> = Ok(value: T) | Err(error: E)

  datatype Address = Address(key: nat)

  const U32_MAX: nat := 0xFFFF_FFFF
  const I128_MAX: int := 0x7FFF_FFFF_FFFF_FFFF_FFFF_FFFF_FFFF_FFFF

  type U32 = n: nat | n <= U32_MAX

  /** `u32::saturating_add`. */
  function SatAdd32(a: nat, b: nat): (r: nat) {
    if a + b > U32_MAX then U32_MAX else a + b
  }

  /** `saturating_sub` on an unsigned integer. */
  function SatSub(a: nat, b: nat): nat {
    if a < b then 0 else a - b
  }

  function Min(a: int, b: int): int {
    if a < b then a else b
  }

  function Lookup<K, V>(m: map<K, V>, k: K, default: V): V {
    if k in m then m[k] else default
  }

  function Without<K, V>(m: map<K, V>, k: K): map<K, V> {
    m - {k}
  }

  ghost predicate NoDup<T>(s: seq<T>) {
    forall i, j :: 0 <= i < j < |s| ==> s[i] != s[j]
  }

  ghost function Elems<T>(s: seq<T>): set<T> {
    set x | x in s
  }

  lemma {:induction false} NoDupSize<T>(s: seq<T>)
    requires NoDup(s)
    ensures |Elems(s)| == |s|
  {
    if s != [] {
      var init, last := s[..|s| - 1], s[|s| - 1];
      NoDupSize(init);
      assert s == init + [last] && last !in init;
      assert Elems(s) == Elems(init) + {last};
    }
  }

  lemma {:induction false} SubsetSize<T>(a: set<T>, b: set<T>)
    requires a <= b
    ensures |a| <= |b|
  {
    if a != {} {
      var x :| x in a;
      SubsetSize(a - {x}, b - {x});
    }
  }

  /** A duplicate-free listing of a finite set. */
  lemma {:induction false} Listing<T>(a: set<T>) returns (s: seq<T>)
    ensures NoDup(s) && Elems(s) == a && |s| == |a|
  {
    if a == {} {
      s := [];
    } else {
      var x :| x in a;
      var rest := Listing(a - {x});
      s := rest + [x];
      assert Elems(s) == Elems(rest) + {x};
    }
  }

  function Get<K, V>(m: map<K, V>, k: K): Option<V> {
    if k in m then Some(m[k]) else None
  }

  // ----- sums over finite maps

  ghost function MapSum<K>(m: map<K, int>): int
    decreases |m|
  {
    if m == map[] then 0
    else
      var k :| k in m;
      m[k] + MapSum(m - {k})
  }

  lemma {:induction false} MapSumRemove<K>(m: map<K, int>, k: K)
    requires k in m
    ensures MapSum(m) == m[k] + MapSum(m - {k})
    decreases |m|
  {
    var p :| p in m && MapSum(m) == m[p] + MapSum(m - {p});
    if p != k {
      MapSumRemove(m - {p}, k);
      MapSumRemove(m - {k}, p);
      assert m - {p} - {k} == m - {k} - {p};
    }
  }

  lemma MapSumUpdate<K>(m: map<K, int>, k: K, v: int)
    ensures MapSum(m[k := v]) == MapSum(m) - Lookup(m, k, 0) + v
  {
    MapSumRemove(m[k := v], k);
    if k in m {
      MapSumRemove(m, k);
      assert m[k := v] - {k} == m - {k};
    } else {
      assert m[k := v] - {k} == m;
    }
  }

  lemma {:induction false} MapSumNonNegative<K>(m: map<K, int>)
    requires forall k :: k in m ==> m[k] >= 0
    ensures MapSum(m) >= 0
    ensures forall k :: k in m ==> m[k] <= MapSum(m)
    decreases |m|
  {
    forall k | k in m
      ensures MapSum(m) >= 0 && m[k] <= MapSum(m)
    {
      MapSumRemove(m, k);
      MapSumNonNegative(m - {k});
    }
  }

  // ----- the token ledger

  /** Balances of every token contract, keyed by (token, holder). */
  type Balances = map<(Address, Address), int>

  function BalanceOf(b: Balances, token: Address, who: Address): int {
    Lookup(b, (token, who), 0)
  }

  /** `token.transfer`: fails on a negative amount or an insufficient balance. */
  function Transfer(b: Balances, token: Address, src: Address, dst: Address, amount: int): (r: Option<Balances>)
    ensures r.Some? <==> 0 <= amount <= BalanceOf(b, token, src)
    ensures r.Some? && src != dst ==>
      && BalanceOf(r.value, token, src) == BalanceOf(b, token, src) - amount
      && BalanceOf(r.value, token, dst) == BalanceOf(b, token, dst) + amount
    ensures r.Some? && src == dst ==> BalanceOf(r.value, token, src) == BalanceOf(b, token, src)
    ensures r.Some? ==> forall t, w :: (t, w) != (token, src) && (t, w) != (token, dst) ==>
      BalanceOf(r.value, t, w) == BalanceOf(b, t, w)
  {
    if amount < 0 || BalanceOf(b, token, src) < amount then None
    else
      var b1 := b[(token, src) := BalanceOf(b, token, src) - amount];
      Some(b1[(token, dst) := BalanceOf(b1, token, dst) + amount])
  }
}
