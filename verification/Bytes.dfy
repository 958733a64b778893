/** Bytes, fixed-width little-endian integers and 32-bit words as the broker's formats use them. */
module Bytes {

  const TWO64: nat := 0x1_0000_0000_0000_0000

  type Byte = b: int | 0 <= b < 256

  function Pow256(n: nat): (p: nat)
    ensures p >= 1
  {
    if n == 0 then 1 else 256 * Pow256(n - 1)
  }

  /** The `n` low bytes of `v`, least significant first. */
  function Le(n: nat, v: nat): (s: seq<Byte>)
    ensures |s| == n
  {
    if n == 0 then [] else [v % 256] + Le(n - 1, v / 256)
  }

  function FromLe(s: seq<Byte>): nat {
    if s == [] then 0 else s[0] + 256 * FromLe(s[1..])
  }

  lemma {:induction false} LeRoundTrip(n: nat, v: nat)
    requires v < Pow256(n)
    ensures FromLe(Le(n, v)) == v
  {
    if n > 0 {
      LeRoundTrip(n - 1, v / 256);
      assert Le(n, v)[1..] == Le(n - 1, v / 256);
    }
  }

  /** Two's complement of width `n` bytes. */
  function Store(n: nat, v: int): (s: seq<Byte>)
    ensures |s| == n
  {
    Le(n, v % Pow256(n))
  }

  function Load(s: seq<Byte>): int {
    var u, p := FromLe(s), Pow256(|s|);
    if 2 * u >= p then u - p else u
  }

  /** Fits a signed integer of `n` bytes. */
  predicate Fits(n: nat, v: int) {
    var p: int := Pow256(n);
    -p <= 2 * v && 2 * v < p
  }

  lemma Wraps(v: int, p: int)
    requires p > 0 && -p <= v < p
    ensures v % p == if v >= 0 then v else v + p
  {
    var q := v / p;
    assert v == q * p + v % p;
    assert q >= 1 ==> q * p >= p;
    assert q <= -2 ==> q * p <= -2 * p;
  }

  lemma StoreRoundTrip(n: nat, v: int)
    requires Fits(n, v)
    ensures Load(Store(n, v)) == v
  {
    Wraps(v, Pow256(n));
    LeRoundTrip(n, v % Pow256(n));
  }

  lemma UnsignedRoundTrip(n: nat, v: int)
    requires 0 <= v < Pow256(n)
    ensures FromLe(Store(n, v)) == v
  {
    Wraps(v, Pow256(n));
    LeRoundTrip(n, v);
  }

  // ---------------------------------------------------------------- from bytes and back

  lemma {:induction false} FromLeBack(s: seq<Byte>)
    ensures FromLe(s) < Pow256(|s|) && Le(|s|, FromLe(s)) == s
  {
    if s != [] {
      FromLeBack(s[1..]);
      assert FromLe(s) / 256 == FromLe(s[1..]) && FromLe(s) % 256 == s[0];
    }
  }

  lemma {:induction false} Pow256IsEven(n: nat)
    requires n > 0
    ensures Pow256(n) % 2 == 0
  {
  }

  /** Whatever bytes a signed field holds, they are the ones its value is written as. */
  lemma LoadBack(s: seq<Byte>)
    requires s != []
    ensures Fits(|s|, Load(s)) && Store(|s|, Load(s)) == s
  {
    FromLeBack(s);
    Pow256IsEven(|s|);
    Wraps(Load(s), Pow256(|s|));
  }

  lemma UnsignedBack(s: seq<Byte>)
    ensures 0 <= FromLe(s) < Pow256(|s|) && Store(|s|, FromLe(s)) == s
  {
    FromLeBack(s);
    Wraps(FromLe(s), Pow256(|s|));
  }
}
