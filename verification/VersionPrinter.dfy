/** Printing a contract version as "major.minor.patch" into a fixed buffer. */
module VersionPrinter {
  import opened Prelude

  newtype Byte = x: int | 0 <= x < 256

  const DOT: Byte := 46
  const BUFFER_SIZE: nat := 20

  function DigitByte(d: nat): Byte
    requires d < 10
  {
    (48 + d) as Byte
  }

  // ----- decimal digits

  /** The decimal representation, most significant digit first. */
  function Digits(n: nat): (ds: seq<Byte>)
    ensures |ds| >= 1
  {
    if n < 10 then [DigitByte(n)] else Digits(n / 10) + [DigitByte(n % 10)]
  }

  /** The digits as the loop produces them, least significant first; none for zero. */
  function LowFirst(n: nat): seq<Byte> {
    if n == 0 then [] else [DigitByte(n % 10)] + LowFirst(n / 10)
  }

  function Reversed(s: seq<Byte>): seq<Byte> {
    seq(|s|, i requires 0 <= i < |s| => s[|s| - 1 - i])
  }

  lemma {:induction false} LowFirstReversed(n: nat)
    requires n > 0
    ensures Reversed(LowFirst(n)) == Digits(n) && |LowFirst(n)| == |Digits(n)|
  {
    assert LowFirst(n)[1..] == LowFirst(n / 10);
    if n >= 10 {
      LowFirstReversed(n / 10);
    }
  }

  /** Reading digits back. */
  function Value(ds: seq<Byte>): int {
    if ds == [] then 0 else Value(ds[..|ds| - 1]) * 10 + (ds[|ds| - 1] as int - 48)
  }

  lemma {:induction false} ValueOfDigits(n: nat)
    ensures Value(Digits(n)) == n
  {
    if n >= 10 {
      ValueOfDigits(n / 10);
      assert Digits(n)[..|Digits(n)| - 1] == Digits(n / 10);
    }
  }

  lemma {:induction false} NoDots(n: nat)
    ensures forall i :: 0 <= i < |Digits(n)| ==> 48 <= Digits(n)[i] <= 57
  {
    if n >= 10 {
      NoDots(n / 10);
    }
  }

  lemma DigitCounts(n: nat)
    ensures n < 1_000 ==> |Digits(n)| <= 3
    ensures n < 10_000 ==> |Digits(n)| <= 4
  {
    if n >= 10 {
      if n >= 100 {
        if n >= 1_000 {
          assert |Digits(n)| == |Digits(n / 10)| + 1;
        }
        assert |Digits(n / 10)| == |Digits(n / 10 / 10)| + 1;
      }
    }
  }

  // ----- the buffer

  /** `buf[lo..hi].reverse()`. */
  method ReverseRange(buf: array<Byte>, lo: nat, hi: nat)
    requires lo <= hi <= buf.Length
    modifies buf
    ensures buf[lo..hi] == Reversed(old(buf[lo..hi]))
    ensures forall k :: 0 <= k < lo || hi <= k < buf.Length ==> buf[k] == old(buf[k])
  {
    var i, j := lo, hi;
    while i < j
      invariant lo <= i && j <= hi && i + j == lo + hi && i <= j + 1
      invariant forall k :: lo <= k < i || j <= k < hi ==> buf[k] == old(buf[lo + hi - 1 - k])
      invariant forall k :: i <= k < j || 0 <= k < lo || hi <= k < buf.Length ==> buf[k] == old(buf[k])
    {
      buf[i], buf[j - 1] := buf[j - 1], buf[i];
      i, j := i + 1, j - 1;
    }
    ghost var was, now := old(buf[lo..hi]), buf[lo..hi];
    forall k | 0 <= k < hi - lo
      ensures now[k] == was[|was| - 1 - k]
    {
      assert now[k] == buf[lo + k] && was[|was| - 1 - k] == old(buf[hi - 1 - k]);
    }
  }

  /** The digit loop. */
  method WriteLowFirst(buf: array<Byte>, pos: nat, n: nat) returns (end: nat)
    requires pos + |LowFirst(n)| <= buf.Length
    modifies buf
    ensures end == pos + |LowFirst(n)| && buf[pos..end] == LowFirst(n)
    ensures forall k :: 0 <= k < pos ==> buf[k] == old(buf[k])
  {
    end := pos;
    var x := n;
    while x > 0
      invariant pos <= end && end + |LowFirst(x)| == pos + |LowFirst(n)|
      invariant buf[pos..end] + LowFirst(x) == LowFirst(n)
      invariant forall k :: 0 <= k < pos ==> buf[k] == old(buf[k])
    {
      ghost var done := buf[pos..end];
      buf[end] := DigitByte(x % 10);
      assert buf[pos..end + 1] == done + [DigitByte(x % 10)];
      end := end + 1;
      x := x / 10;
    }
  }

  /** `write_u32_decimal`: digits from the low end, then an in-place reverse. */
  method WriteDecimal(buf: array<Byte>, pos: nat, n: nat) returns (end: nat)
    requires pos + |Digits(n)| <= buf.Length
    modifies buf
    ensures end == pos + |Digits(n)| && buf[..end] == old(buf[..pos]) + Digits(n)
  {
    if n == 0 {
      buf[pos] := 48;
      assert buf[..pos + 1] == old(buf[..pos]) + [48];
      return pos + 1;
    }
    LowFirstReversed(n);
    hide Digits, LowFirst, Reversed;
    end := WriteLowFirst(buf, pos, n);
    ReverseRange(buf, pos, end);
    assert buf[..end] == buf[..pos] + buf[pos..end];
    assert buf[..pos] == old(buf[..pos]);
  }

  function Major(v: nat): nat { v / 1_000_000 }
  function Minor(v: nat): nat { v % 1_000_000 / 1_000 }
  function Patch(v: nat): nat { v % 1_000 }

  function Text(v: nat): seq<Byte> {
    Digits(Major(v)) + [DOT] + Digits(Minor(v)) + [DOT] + Digits(Patch(v))
  }

  lemma TextFits(v: U32)
    ensures |Digits(Major(v))| <= 4 && |Digits(Minor(v))| <= 3 && |Digits(Patch(v))| <= 3 && |Text(v)| <= 12
  {
    DigitCounts(Major(v));
    DigitCounts(Minor(v));
    DigitCounts(Patch(v));
  }

  method WriteDot(buf: array<Byte>, pos: nat) returns (end: nat)
    requires pos < buf.Length
    modifies buf
    ensures end == pos + 1 && buf[..end] == old(buf[..pos]) + [DOT]
  {
    buf[pos] := DOT;
    return pos + 1;
  }

  /** `get_contract_version`: the buffer never overflows and holds the version text. */
  method GetContractVersion(version: U32) returns (text: seq<Byte>)
    ensures text == Text(version) && |text| <= 12 <= BUFFER_SIZE
  {
    hide Digits, Major, Minor, Patch;
    TextFits(version);
    var buf := new Byte[BUFFER_SIZE](_ => 0);
    var pos := WriteDecimal(buf, 0, Major(version));
    pos := WriteDot(buf, pos);
    pos := WriteDecimal(buf, pos, Minor(version));
    pos := WriteDot(buf, pos);
    pos := WriteDecimal(buf, pos, Patch(version));
    text := buf[..pos];
  }

  // ----- reading it back

  function FirstDot(s: seq<Byte>): (i: nat)
    ensures i <= |s|
  {
    if s == [] || s[0] == DOT then 0 else 1 + FirstDot(s[1..])
  }

  lemma {:induction false} FirstDotAfter(a: seq<Byte>, b: seq<Byte>)
    requires forall i :: 0 <= i < |a| ==> a[i] != DOT
    ensures FirstDot(a + [DOT] + b) == |a|
    decreases |a|
  {
    if a != [] {
      assert (a + [DOT] + b)[1..] == a[1..] + [DOT] + b;
      FirstDotAfter(a[1..], b);
    }
  }

  /** Split at the dots and recombine the three numbers. */
  function Decode(text: seq<Byte>): int {
    var i := FirstDot(text);
    var rest := if i < |text| then text[i + 1..] else [];
    var j := FirstDot(rest);
    var last := if j < |rest| then rest[j + 1..] else [];
    Value(text[..i]) * 1_000_000 + Value(rest[..j]) * 1_000 + Value(last)
  }

  lemma Recombine(v: nat)
    ensures Major(v) * 1_000_000 + Minor(v) * 1_000 + Patch(v) == v
  {
    assert v % 1_000_000 % 1_000 == v % 1_000;
  }

  /** Three dotless parts are found again. */
  lemma DecodeParts(a: seq<Byte>, b: seq<Byte>, c: seq<Byte>)
    requires forall i :: 0 <= i < |a| ==> a[i] != DOT
    requires forall i :: 0 <= i < |b| ==> b[i] != DOT
    ensures Decode(a + [DOT] + (b + [DOT] + c)) == Value(a) * 1_000_000 + Value(b) * 1_000 + Value(c)
  {
    hide Value, FirstDot;
    var rest := b + [DOT] + c;
    FirstDotAfter(a, rest);
    FirstDotAfter(b, c);
    assert (a + [DOT] + rest)[..|a|] == a && (a + [DOT] + rest)[|a| + 1..] == rest;
    assert rest[..|b|] == b && rest[|b| + 1..] == c;
  }

  /** Decoding the printed text gives the version back. */
  lemma RoundTrip(v: nat)
    ensures Decode(Text(v)) == v
  {
    hide Digits, Value, Decode, Major, Minor, Patch;
    var a, b, c := Digits(Major(v)), Digits(Minor(v)), Digits(Patch(v));
    NoDots(Major(v));
    NoDots(Minor(v));
    DecodeParts(a, b, c);
    assert Text(v) == a + [DOT] + (b + [DOT] + c);
    ValueOfDigits(Major(v));
    ValueOfDigits(Minor(v));
    ValueOfDigits(Patch(v));
    Recombine(v);
  }

  /** Distinct versions print differently. */
  lemma Injective(v: nat, w: nat)
    requires Text(v) == Text(w)
    ensures v == w
  {
    RoundTrip(v);
    RoundTrip(w);
  }
}
