/** Variable-length integers: LEB128 of 64-bit values, and the zigzag map that makes signs cheap. */
module Varint {
  import opened RaftTypes
  import opened Bytes

  type Word64 = v: nat | v < 0x1_0000_0000_0000_0000

  predicate IsInt64(v: int) {
    -0x8000_0000_0000_0000 <= v < 0x8000_0000_0000_0000
  }

  const MAX_BYTES: nat := 10

  // ---------------------------------------------------------------- encoding

  function Encoded(v: nat): (s: seq<Byte>)
    ensures |s| >= 1
  {
    if v < 128 then [v] else [v % 128 + 128] + Encoded(v / 128)
  }

  /** `v` moved up by `7 * i` bits. */
  function Scaled(v: nat, i: nat): nat {
    if i == 0 then v else 128 * Scaled(v, i - 1)
  }

  function Pow128(i: nat): nat {
    Scaled(1, i)
  }

  lemma {:induction false} EncodedLength(v: nat, n: nat)
    requires n >= 1 && v < Pow128(n)
    ensures |Encoded(v)| <= n
  {
    if v >= 128 {
      EncodedLength(v / 128, n - 1);
    }
  }

  /** A 64-bit value takes at most ten bytes, and the tenth is 0 or 1. */
  lemma Word64Length(v: Word64)
    ensures |Encoded(v)| <= MAX_BYTES
  {
    Ten();
    EncodedLength(v, 10);
  }

  lemma Ten()
    ensures Pow128(9) == 0x8000_0000_0000_0000 && Pow128(10) >= TWO64
  {
    assert Pow128(3) == 0x20_0000;
    assert Pow128(6) == 0x400_0000_0000;
  }

  /** Writes `v` at the start of `out`; answers how many bytes that took. */
  method PutVarint(v: Word64, out: array<Byte>) returns (n: nat)
    requires out.Length >= MAX_BYTES
    modifies out
    ensures n <= MAX_BYTES && out[..n] == Encoded(v)
    ensures forall k | n <= k < out.Length :: out[k] == old(out[k])
  {
    Word64Length(v);
    var value, i := v, 0;
    while value >= 128
      invariant i + |Encoded(value)| == |Encoded(v)|
      invariant out[..i] + Encoded(value) == Encoded(v)
      invariant forall k | i <= k < out.Length :: out[k] == old(out[k])
      decreases value
    {
      ghost var done := out[..i];
      out[i] := value % 128 + 128;
      assert out[..i + 1] == done + [value % 128 + 128];
      value := value / 128;
      i := i + 1;
    }
    ghost var done := out[..i];
    out[i] := value;
    assert out[..i + 1] == done + [value];
    n := i + 1;
  }

  // ---------------------------------------------------------------- decoding

  /** A shift of a 64-bit register by `7 * i` bits. */
  function Shifted(v: nat, i: nat): Word64 {
    Scaled(v, i) % TWO64
  }

  /** Moving up adds up. */
  lemma {:induction false} ScaledSplits(v: nat, d: nat, rest: nat, i: nat)
    requires v == d + 128 * rest
    ensures Scaled(v, i) == Scaled(d, i) + Scaled(rest, i + 1)
  {
    if i > 0 {
      ScaledSplits(v, d, rest, i - 1);
    }
  }

  lemma {:induction false} ScaledBound(d: nat, c: nat, i: nat)
    requires d <= c
    ensures Scaled(d, i) <= Scaled(c, i)
  {
    if i > 0 {
      ScaledBound(d, c, i - 1);
    }
  }

  lemma {:induction false} ScaledTimes(c: nat, i: nat)
    ensures Scaled(c, i) == c * Pow128(i)
  {
    if i > 0 {
      ScaledTimes(c, i - 1);
    }
  }

  /** The group of byte `i` lies above every bit gathered from the bytes before it. */
  lemma GroupFits(acc: nat, d: nat, i: nat)
    requires acc < Pow128(i) && d < 128 && i < MAX_BYTES
    ensures acc + Shifted(d, i) < TWO64 && (i < 9 ==> acc + Shifted(d, i) < Pow128(i + 1))
  {
    Ten();
    if i < 9 {
      ScaledBound(d, 127, i);
      ScaledTimes(127, i);
      Pow128Grows(i + 1, 9);
    } else {
      ScaledTimes(d, 9);
      assert d * 0x8000_0000_0000_0000 % TWO64 == (d % 2) * 0x8000_0000_0000_0000;
    }
  }

  lemma Pow128Grows(i: nat, j: nat)
    requires i <= j
    ensures Pow128(i) <= Pow128(j)
    decreases j
  {
    if i < j {
      Pow128Grows(i, j - 1);
    }
  }

  /** From byte `i` on, with `acc` gathered so far: disjoint bits, so putting together is adding. */
  function Gather(s: seq<Byte>, i: nat, acc: Word64): Option<(Word64, seq<Byte>)>
    requires i <= |s| && (i < MAX_BYTES ==> acc < Pow128(i))
    decreases |s| - i
  {
    if i == |s| || i >= MAX_BYTES then None
    else
      GroupFits(acc, s[i] % 128, i);
      var acc' := acc + Shifted(s[i] % 128, i);
      if s[i] < 128 then Some((acc', s[i + 1..])) else Gather(s, i + 1, acc')
  }

  /** The value at the front of `s` and what follows it; `None` if truncated or too long. */
  function Decoded(s: seq<Byte>): Option<(Word64, seq<Byte>)> {
    Gather(s, 0, 0)
  }

  method GetVarint(s: seq<Byte>) returns (r: Option<(Word64, seq<Byte>)>)
    ensures r == Decoded(s)
  {
    var result: Word64, i := 0, 0;
    while i < |s| && i < MAX_BYTES
      invariant i <= |s| && i <= MAX_BYTES && (i < MAX_BYTES ==> result < Pow128(i))
      invariant Gather(s, i, result) == Decoded(s)
    {
      GroupFits(result, s[i] % 128, i);
      result := result + Shifted(s[i] % 128, i);
      if s[i] < 128 {
        return Some((result, s[i + 1..]));
      }
      i := i + 1;
    }
    r := None;
  }

  // ---------------------------------------------------------------- any bytes

  /** Where the first byte without a continuation bit is, or the length if there is none. */
  function Stop(s: seq<Byte>): (n: nat)
    ensures n <= |s|
  {
    if s == [] || s[0] < 128 then 0 else 1 + Stop(s[1..])
  }

  /** Groups of seven bits, least significant first. */
  function Base128(s: seq<Byte>): nat {
    if s == [] then 0 else s[0] % 128 + 128 * Base128(s[1..])
  }

  lemma AddThenWrap(a: nat, d: nat, r: nat)
    ensures (a + d % TWO64 + r) % TWO64 == (a + d + r) % TWO64
  {
    var q := d / TWO64;
    assert d == q * TWO64 + d % TWO64;
    assert a + d + r == (a + d % TWO64 + r) + q * TWO64;
    WrapTurns(a + d % TWO64 + r, q);
  }

  lemma {:induction false} WrapTurns(a: nat, q: nat)
    ensures (a + q * TWO64) % TWO64 == a % TWO64
  {
    if q > 0 {
      WrapTurns(a, q - 1);
      assert (a + (q - 1) * TWO64 + TWO64) % TWO64 == (a + (q - 1) * TWO64) % TWO64;
    }
  }

  lemma StopStep(s: seq<Byte>, i: nat)
    requires i < |s|
    ensures s[i] < 128 ==> Stop(s[i..]) == 0 && Base128(s[i..i + 1]) == s[i] % 128
    ensures s[i] >= 128 ==> Stop(s[i..]) == 1 + Stop(s[i + 1..])
    ensures s[i] >= 128 && Stop(s[i..]) < |s[i..]| ==>
              Base128(s[i..i + Stop(s[i..]) + 1]) == s[i] % 128 + 128 * Base128(s[i + 1..i + 1 + Stop(s[i + 1..]) + 1])
  {
    assert s[i..][0] == s[i] && s[i..][1..] == s[i + 1..];
    var n := Stop(s[i..]);
    if n < |s[i..]| {
      assert s[i..i + n + 1][1..] == s[i + 1..i + n + 1];
    }
  }

  lemma NextGroup(acc: nat, d: nat, r: nat, v: nat, i: nat)
    requires v == d + 128 * r
    ensures (acc + Shifted(d, i) + Scaled(r, i + 1)) % TWO64 == (acc + Scaled(v, i)) % TWO64
  {
    ScaledSplits(v, d, r, i);
    AddThenWrap(acc, Scaled(d, i), Scaled(r, i + 1));
  }

  lemma LastGroup(acc: nat, d: nat, i: nat)
    requires acc + Shifted(d, i) < TWO64
    ensures acc + Shifted(d, i) == (acc + Scaled(d, i)) % TWO64
  {
    AddThenWrap(acc, Scaled(d, i), 0);
  }

  /** What gathering from byte `i` on yields, if the value ends at byte `n`. */
  function Gathered(s: seq<Byte>, i: nat, n: nat, acc: nat): Option<(Word64, seq<Byte>)>
    requires i <= n
  {
    if n < |s| && n < MAX_BYTES then Some(((acc + Scaled(Base128(s[i..n + 1]), i)) % TWO64, s[n + 1..])) else None
  }

  lemma MoreGathered(s: seq<Byte>, i: nat, n: nat, acc: nat)
    requires i < |s| && s[i] >= 128 && n == i + Stop(s[i..])
    ensures i + 1 <= n == i + 1 + Stop(s[i + 1..])
    ensures Gathered(s, i + 1, n, acc + Shifted(s[i] % 128, i)) == Gathered(s, i, n, acc)
  {
    StopStep(s, i);
    if n < |s| {
      NextGroup(acc, s[i] % 128, Base128(s[i + 1..n + 1]), Base128(s[i..n + 1]), i);
    }
  }

  lemma {:induction false} GatherIs(s: seq<Byte>, i: nat, acc: Word64)
    requires i <= |s| && (i < MAX_BYTES ==> acc < Pow128(i))
    ensures Gather(s, i, acc) == Gathered(s, i, i + Stop(s[i..]), acc)
    decreases |s| - i
  {
    if i < |s| && i < MAX_BYTES {
      var d := s[i] % 128;
      GroupFits(acc, d, i);
      if s[i] < 128 {
        StopStep(s, i);
        LastGroup(acc, d, i);
      } else {
        MoreGathered(s, i, i + Stop(s[i..]), acc);
        GatherIs(s, i + 1, acc + Shifted(d, i));
      }
    }
  }

  /**
    Any bytes: read up to the first one without a continuation bit, if that is among the first ten, the
    value is their groups as a number in base 128, cut to 64 bits; otherwise nothing is read.
   */
  lemma DecodedIs(s: seq<Byte>)
    ensures var n := Stop(s);
            Decoded(s) == if n < |s| && n < MAX_BYTES then Some((Base128(s[..n + 1]) % TWO64, s[n + 1..])) else None
  {
    GatherIs(s, 0, 0);
    assert s[0..] == s;
  }

  lemma {:induction false} EncodedStops(v: nat, rest: seq<Byte>)
    ensures Stop(Encoded(v) + rest) == |Encoded(v)| - 1 && Base128(Encoded(v)) == v
  {
    if v >= 128 {
      EncodedStops(v / 128, rest);
      assert (Encoded(v) + rest)[1..] == Encoded(v / 128) + rest && Encoded(v)[1..] == Encoded(v / 128);
    }
  }

  lemma VarintRoundTrip(v: Word64, rest: seq<Byte>)
    ensures Decoded(Encoded(v) + rest) == Some((v, rest))
  {
    var s := Encoded(v) + rest;
    EncodedStops(v, rest);
    Word64Length(v);
    DecodedIs(s);
    assert s[..|Encoded(v)|] == Encoded(v) && s[|Encoded(v)|..] == rest;
  }

  // ---------------------------------------------------------------- zigzag

  /** Twice the value, with every bit flipped when it is negative. */
  function Zigzag(v: int): (u: Word64)
    requires IsInt64(v)
  {
    var shifted := 2 * v % TWO64;
    if v >= 0 then shifted else TWO64 - 1 - shifted
  }

  /** Half the value, with every bit flipped when it is odd. */
  function Unzigzag(u: Word64): int {
    if u % 2 == 0 then u / 2 else -(u / 2) - 1
  }

  lemma ZigzagRoundTrip(v: int)
    requires IsInt64(v)
    ensures Unzigzag(Zigzag(v)) == v
  {
    Wraps(2 * v, TWO64);
  }

  lemma UnzigzagRoundTrip(u: Word64)
    ensures IsInt64(Unzigzag(u)) && Zigzag(Unzigzag(u)) == u
  {
    Wraps(2 * Unzigzag(u), TWO64);
  }
}
