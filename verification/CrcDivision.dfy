/** The checksum is the remainder of a long division of the message by the generator polynomial. */
module CrcDivision {
  import opened Bytes
  import opened Crc32c

  /** The generator of CRC32C as section 12.1 of RFC 3720 gives it. */
  const GENERATOR: nat := 0x1_1EDC_6F41

  /** Its coefficients, highest first. */
  function Divisor(): seq<bool> {
    Coefficients(GENERATOR)
  }

  function Coefficients(g: nat): (s: seq<bool>)
    ensures |s| == 33
  {
    seq(33, i requires 0 <= i < 33 => Bits(33, g)[32 - i])
  }

  /** Sum of two polynomials over the field of two elements, lined up at their highest coefficients. */
  function Plus(s: seq<bool>, t: seq<bool>): (r: seq<bool>)
    ensures |r| == |s|
  {
    seq(|s|, i requires 0 <= i < |s| => s[i] != (i < |t| && t[i]))
  }

  /** Long division by `d`, coefficient by coefficient: what is left when fewer than 33 remain. */
  function Remainder(s: seq<bool>, d: seq<bool>): (r: seq<bool>)
    ensures |r| == if |s| <= 32 then |s| else 32
    decreases |s|
  {
    if |s| <= 32 then s else Remainder((if s[0] then Plus(s, d) else s)[1..], d)
  }

  /** The message as coefficients: bytes in order, the low bit of each first. */
  function MessageBits(data: seq<Byte>): seq<bool> {
    if data == [] then [] else Bits(8, data[0]) + MessageBits(data[1..])
  }

  function Ones(): Word {
    Flip(Zero())
  }

  // ---------------------------------------------------------------- the polynomial

  lemma HalfOf(lo: nat, p: nat, v: nat)
    requires v == lo + 2 * p
    ensures v / 2 == lo / 2 + p && v % 2 == lo % 2
  {
  }

  lemma Doubles(p: nat, hi: nat)
    ensures (2 * p) * hi == 2 * (p * hi)
  {
  }

  lemma BitsFront(n: nat, v: nat, a: seq<bool>, b: seq<bool>)
    requires Bits(n, v / 2) == a + b
    ensures Bits(n + 1, v) == ([v % 2 == 1] + a) + b
  {
    assert [v % 2 == 1] + (a + b) == ([v % 2 == 1] + a) + b;
  }

  lemma {:induction false} BitsSplit(k: nat, n: nat, lo: nat, hi: nat, v: nat)
    requires lo < Pow2(k) && v == lo + Pow2(k) * hi
    ensures Bits(k + n, v) == Bits(k, lo) + Bits(n, hi)
  {
    if k > 0 {
      var p := Pow2(k - 1) * hi;
      Doubles(Pow2(k - 1), hi);
      HalfOf(lo, p, v);
      BitsSplit(k - 1, n, lo / 2, hi, lo / 2 + p);
      BitsFront(k - 1 + n, v, Bits(k - 1, lo / 2), Bits(n, hi));
    }
  }

  type Digit = d: int | 0 <= d < 16

  /** The number with these hexadecimal digits, lowest first. */
  function Number(ds: seq<Digit>): nat {
    if ds == [] then 0 else ds[0] + 16 * Number(ds[1..])
  }

  predicate Mirrored(s: seq<bool>, t: seq<bool>) {
    |s| == |t| && forall i | 0 <= i < |s| :: s[i] == t[|t| - 1 - i]
  }

  lemma MirroredAppend(s: seq<bool>, t: seq<bool>, u: seq<bool>, v: seq<bool>)
    requires Mirrored(s, t) && Mirrored(u, v)
    ensures Mirrored(s + u, v + t)
  {
  }

  function DigitBits(ds: seq<Digit>): seq<bool> {
    if ds == [] then [] else Bits(4, ds[0]) + DigitBits(ds[1..])
  }

  lemma Pow2Digit(m: nat)
    ensures Pow2(m + 4) == 16 * Pow2(m)
  {
    assert Pow2(m + 4) == 2 * Pow2(m + 3) == 4 * Pow2(m + 2) == 8 * Pow2(m + 1);
  }

  lemma Regroup(d: nat, low: nat, power: nat, top: nat)
    ensures d + 16 * low + (16 * power) * top == d + 16 * (low + power * top)
  {
  }

  lemma {:induction false} NumberBits(ds: seq<Digit>, n: nat, top: nat, v: nat)
    requires v == Number(ds) + Pow2(4 * |ds|) * top
    ensures Bits(4 * |ds| + n, v) == DigitBits(ds) + Bits(n, top)
  {
    if ds != [] {
      var d, later := ds[0], ds[1..];
      var m := 4 * |later|;
      var w := Number(later) + Pow2(m) * top;
      Pow2Digit(m);
      Pow2Digit(0);
      Regroup(d, Number(later), Pow2(m), top);
      NumberBits(later, n, top, w);
      BitsSplit(4, m + n, d, w, v);
      assert Bits(4, d) + (DigitBits(later) + Bits(n, top)) == (Bits(4, d) + DigitBits(later)) + Bits(n, top);
    }
  }

  lemma {:induction false} DigitBitsAppend(ds: seq<Digit>, d: Digit)
    ensures DigitBits(ds + [d]) == DigitBits(ds) + Bits(4, d)
  {
    if ds == [] {
      assert [d][1..] == [];
    } else {
      DigitBitsAppend(ds[1..], d);
      assert (ds + [d])[1..] == ds[1..] + [d];
    }
  }

  /** The four bits of one digit are those of the other in reverse. */
  predicate DigitMirrored(a: Digit, b: Digit) {
    a % 2 == b / 8 % 2 && a / 2 % 2 == b / 4 % 2 && a / 4 % 2 == b / 2 % 2 && a / 8 % 2 == b % 2
  }

  predicate DigitsMirrored(a: seq<Digit>, b: seq<Digit>) {
    |a| == |b| && forall i | 0 <= i < |a| :: DigitMirrored(a[i], b[|b| - 1 - i])
  }

  lemma DigitIs(d: Digit)
    ensures Bits(4, d) == [d % 2 == 1, d / 2 % 2 == 1, d / 4 % 2 == 1, d / 8 % 2 == 1]
  {
    assert Bits(1, d / 8) == [d / 8 % 2 == 1];
    assert Bits(2, d / 4) == [d / 4 % 2 == 1] + Bits(1, d / 8);
    assert Bits(3, d / 2) == [d / 2 % 2 == 1] + Bits(2, d / 4);
  }

  lemma MirroredDigit(a: Digit, b: Digit)
    requires DigitMirrored(a, b)
    ensures Mirrored(Bits(4, a), Bits(4, b))
  {
    DigitIs(a);
    DigitIs(b);
  }

  lemma {:induction false} MirroredDigits(a: seq<Digit>, b: seq<Digit>)
    requires DigitsMirrored(a, b)
    ensures Mirrored(DigitBits(a), DigitBits(b))
  {
    if a != [] {
      var n := |b| - 1;
      forall i | 0 <= i < n ensures DigitMirrored(a[1..][i], b[..n][n - 1 - i]) {
        assert a[1..][i] == a[i + 1] && b[..n][n - 1 - i] == b[|b| - 1 - (i + 1)];
      }
      MirroredDigits(a[1..], b[..n]);
      assert b == b[..n] + [b[n]];
      DigitBitsAppend(b[..n], b[n]);
      MirroredDigit(a[0], b[n]);
      MirroredAppend(Bits(4, a[0]), Bits(4, b[n]), DigitBits(a[1..]), DigitBits(b[..n]));
    }
  }

  /** The constant of the code, lowest digit first. */
  const POLY_DIGITS: seq<Digit> := [0x8, 0x7, 0xB, 0x3, 0x6, 0xF, 0x2, 0x8]

  /** The generator without its top coefficient, lowest digit first. */
  const GENERATOR_DIGITS: seq<Digit> := [0x1, 0x4, 0xF, 0x6, 0xC, 0xD, 0xE, 0x1]

  lemma DigitsMirror()
    ensures DigitsMirrored(POLY_DIGITS, GENERATOR_DIGITS)
  {
    assert DigitMirrored(0x8, 0x1) && DigitMirrored(0x7, 0xE) && DigitMirrored(0xB, 0xD) && DigitMirrored(0x3, 0xC);
    assert DigitMirrored(0x6, 0x6) && DigitMirrored(0xF, 0xF) && DigitMirrored(0x2, 0x4);
  }

  lemma PolyNumber(v: nat)
    requires v == 0x82F63B78
    ensures v == Number(POLY_DIGITS)
  {
  }

  lemma GeneratorNumber(v: nat)
    requires v == GENERATOR
    ensures v == Number(GENERATOR_DIGITS) + Pow2(32)
  {
    assert Pow2(8) == 0x100 && Pow2(16) == 0x1_0000 && Pow2(24) == 0x100_0000;
  }

  /** `poly` is `d` without its top coefficient. */
  ghost predicate IsTailOf(poly: Word, d: seq<bool>) {
    |d| == 33 && d[0] && forall i | 0 <= i < 32 :: d[i + 1] == poly[i]
  }

  lemma MirrorIsTail(v: nat, g: nat, q: seq<bool>)
    requires Mirrored(Bits(32, v), q) && Bits(33, g) == q + [true]
    ensures IsTailOf(ToWord(v), Coefficients(g))
  {
    var d := Coefficients(g);
    forall i | 0 <= i < 32 ensures d[i + 1] == ToWord(v)[i] {
    }
  }

  lemma NumbersMirror(v: nat, g: nat, a: seq<Digit>, b: seq<Digit>, n: nat)
    requires v == Number(a) && g == Number(b) + Pow2(n) && n == 4 * |b| && DigitsMirrored(a, b)
    ensures Mirrored(Bits(n, v), DigitBits(b)) && Bits(n + 1, g) == DigitBits(b) + [true]
  {
    NumberBits(a, 0, 0, v);
    NumberBits(b, 1, 1, g);
    MirroredDigits(a, b);
    assert Bits(1, 1) == [true];
    assert DigitBits(a) + [] == DigitBits(a);
  }

  /** The constant of the code is the generator without its top coefficient, in reverse. */
  lemma PolyIsTail()
    ensures IsTailOf(POLY, Divisor())
  {
    PolyNumber(0x82F63B78);
    GeneratorNumber(GENERATOR);
    DigitsMirror();
    NumbersMirror(0x82F63B78, GENERATOR, POLY_DIGITS, GENERATOR_DIGITS, 32);
    MirrorIsTail(0x82F63B78, GENERATOR, DigitBits(GENERATOR_DIGITS));
  }

  // ---------------------------------------------------------------- one coefficient

  function Zeros(n: nat): (s: seq<bool>)
    ensures |s| == n
  {
    seq(n, _ => false)
  }

  /** What is still to be divided: the bits not yet read, with the register added in front. */
  function Pending(c: Word, bits: seq<bool>): seq<bool> {
    Plus(bits + Zeros(32), c)
  }

  /** The register after one more bit of the message. */
  function Fed(poly: Word, c: Word, b: bool): Word {
    Xor(Right(c, 1), if c[0] != b then poly else Zero())
  }

  lemma DivideOne(poly: Word, d: seq<bool>, c: Word, bits: seq<bool>)
    requires IsTailOf(poly, d) && bits != []
    ensures var s := Pending(c, bits);
            (if s[0] then Plus(s, d) else s)[1..] == Pending(Fed(poly, c, bits[0]), bits[1..])
  {
    var s := Pending(c, bits);
    var x, y := (if s[0] then Plus(s, d) else s)[1..], Pending(Fed(poly, c, bits[0]), bits[1..]);
    forall i | 0 <= i < |x| ensures x[i] == y[i] {
    }
  }

  function FedAll(poly: Word, c: Word, bits: seq<bool>): Word
    decreases |bits|
  {
    if bits == [] then c else FedAll(poly, Fed(poly, c, bits[0]), bits[1..])
  }

  /** Feeding the register bit by bit is dividing. */
  lemma {:induction false} FeedingDivides(poly: Word, d: seq<bool>, c: Word, bits: seq<bool>)
    requires IsTailOf(poly, d)
    ensures Remainder(Pending(c, bits), d) == FedAll(poly, c, bits)
    decreases |bits|
  {
    if bits == [] {
      assert Pending(c, bits) == c;
    } else {
      DivideOne(poly, d, c, bits);
      FeedingDivides(poly, d, Fed(poly, c, bits[0]), bits[1..]);
    }
  }

  // ---------------------------------------------------------------- a byte at a time

  /** The word with `bits` at its low end. */
  function Padded(bits: seq<bool>): Word
    requires |bits| <= 32
  {
    bits + Zeros(32 - |bits|)
  }

  lemma {:induction false} FedAllAppends(poly: Word, c: Word, a: seq<bool>, b: seq<bool>)
    ensures FedAll(poly, c, a + b) == FedAll(poly, FedAll(poly, c, a), b)
    decreases |a|
  {
    if a == [] {
      assert a + b == b;
    } else {
      FedAllAppends(poly, Fed(poly, c, a[0]), a[1..], b);
      assert (a + b)[1..] == a[1..] + b;
    }
  }

  lemma OneShift(c: Word, k: nat)
    ensures Shifts(c, k + 1) == Shift(Shifts(c, k))
  {
  }

  lemma FirstShift(c: Word, d: Word)
    requires d == Shift(c)
    ensures Shifts(c, 1) == d && Shifts(d, 0) == d
  {
    OneShift(c, 0);
  }

  lemma NextShift(c: Word, d: Word, j: nat)
    requires Shifts(c, j + 1) == Shifts(d, j)
    ensures Shifts(c, j + 2) == Shifts(d, j + 1)
  {
    OneShift(c, j + 1);
    OneShift(d, j);
  }

  ghost predicate InStep(c: Word, d: Word, k: nat) {
    Shifts(c, k + 1) == Shifts(d, k)
  }

  lemma FirstInStep(c: Word, d: Word)
    requires d == Shift(c)
    ensures InStep(c, d, 0)
  {
    FirstShift(c, d);
  }

  lemma NextInStep(c: Word, d: Word, k: nat)
    requires InStep(c, d, k)
    ensures InStep(c, d, k + 1)
  {
    NextShift(c, d, k);
  }

  lemma ShiftsFront(c: Word, d: Word, k: nat)
    requires d == Shift(c)
    ensures InStep(c, d, k)
  {
    FirstInStep(c, d);
    for j := 0 to k
      invariant InStep(c, d, j)
    {
      NextInStep(c, d, j);
    }
  }

  lemma MixedFront(c: Word, bits: seq<bool>)
    requires 1 <= |bits| <= 32
    ensures Shift(Xor(c, Padded(bits))) == Xor(Fed(POLY, c, bits[0]), Padded(bits[1..]))
  {
    var first, later := c[0 := c[0] != bits[0]], Padded([false] + bits[1..]);
    assert Xor(c, Padded(bits)) == Xor(first, later);
    ShiftIsLinear(first, later);
    ClearBitShifts(later);
    assert Right(later, 1) == Padded(bits[1..]);
    assert Right(first, 1) == Right(c, 1);
  }

  /** Mixing several bits in at once and shifting is feeding them one by one. */
  lemma {:induction false} MixedIsFed(c: Word, bits: seq<bool>)
    requires |bits| <= 32
    ensures Shifts(Xor(c, Padded(bits)), |bits|) == FedAll(POLY, c, bits)
    decreases |bits|
  {
    if bits == [] {
      assert Xor(c, Padded(bits)) == c;
    } else {
      var d := Xor(Fed(POLY, c, bits[0]), Padded(bits[1..]));
      MixedFront(c, bits);
      ShiftsFront(Xor(c, Padded(bits)), d, |bits| - 1);
      MixedIsFed(Fed(POLY, c, bits[0]), bits[1..]);
    }
  }

  lemma ByteIsPadded(b: Byte)
    ensures ToWord(b) == Padded(Bits(8, b))
  {
    assert Pow2(8) == 256;
    BitsSplit(8, 24, b, 0, b);
    ZeroBits(24);
  }

  lemma {:induction false} MessageAppends(data: seq<Byte>, b: Byte)
    ensures MessageBits(data + [b]) == MessageBits(data) + Bits(8, b)
  {
    if data == [] {
      assert [b][1..] == [];
    } else {
      MessageAppends(data[1..], b);
      assert (data + [b])[1..] == data[1..] + [b];
    }
  }

  lemma ByteIsFed(c: Word, b: Byte)
    ensures ByteShift(Xor(c, ToWord(b))) == FedAll(POLY, c, Bits(8, b))
  {
    ByteIsPadded(b);
    MixedIsFed(c, Bits(8, b));
    EightShifts(Xor(c, ToWord(b)), 8);
  }

  lemma {:induction false} RegisterIsFed(c: Word, data: seq<Byte>)
    ensures Register(c, data) == FedAll(POLY, c, MessageBits(data))
  {
    if data != [] {
      var n := |data| - 1;
      var done, b := data[..n], data[n];
      RegisterIsFed(c, done);
      assert data == done + [b];
      MessageAppends(done, b);
      FedAllAppends(POLY, c, MessageBits(done), Bits(8, b));
      ByteIsFed(Register(c, done), b);
      RegisterStep(c, data);
    }
  }

  /**
    For every message: complement its first 32 coefficients, append 32 zeros, divide by the generator,
    and complement the remainder.
   */
  lemma CrcIsRemainder(data: seq<Byte>)
    ensures Crc(data, Zero()) == Flip(Remainder(Plus(MessageBits(data) + Zeros(32), Ones()), Divisor()))
  {
    PolyIsTail();
    RegisterIsFed(Ones(), data);
    FeedingDivides(POLY, Divisor(), Ones(), MessageBits(data));
  }
}
