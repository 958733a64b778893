/** CRC32C by table, against the bit-at-a-time division it stands for (section 12.1 of RFC 3720). */
module Crc32c {
  import opened Bytes

  /** A 32-bit register, least significant bit first. */
  type Word = w: seq<bool> | |w| == 32 witness Bits(32, 0)

  function Bits(n: nat, v: nat): (w: seq<bool>)
    ensures |w| == n
  {
    if n == 0 then [] else [v % 2 == 1] + Bits(n - 1, v / 2)
  }

  function Value(w: seq<bool>): nat {
    if w == [] then 0 else (if w[0] then 1 else 0) + 2 * Value(w[1..])
  }

  function ToWord(v: nat): Word {
    Bits(32, v)
  }

  function Xor(a: Word, b: Word): Word {
    seq(32, i requires 0 <= i < 32 => a[i] != b[i])
  }

  function Right(w: Word, k: nat): Word {
    seq(32, i requires 0 <= i < 32 => i + k < 32 && w[i + k])
  }

  function Low(w: Word): Word {
    seq(32, i requires 0 <= i < 32 => i < 8 && w[i])
  }

  function Zero(): Word {
    seq(32, i requires 0 <= i < 32 => false)
  }

  function Flip(w: Word): Word {
    seq(32, i requires 0 <= i < 32 => !w[i])
  }

  const POLY: Word := ToWord(0x82F63B78)

  /** One bit of the reflected division. */
  function Shift(c: Word): Word {
    Xor(Right(c, 1), if c[0] then POLY else Zero())
  }

  function Shifts(c: Word, k: nat): Word {
    if k == 0 then c else Shift(Shifts(c, k - 1))
  }

  /** What eight bits of division do. */
  function ByteShift(c: Word): Word {
    Shifts(c, 8)
  }

  /** The register after the message, one bit at a time. */
  function Register(c: Word, data: seq<Byte>): Word {
    if data == [] then c
    else ByteShift(Xor(Register(c, data[..|data| - 1]), ToWord(data[|data| - 1])))
  }

  /** The checksum of `data` continuing from `seed`. */
  function Crc(data: seq<Byte>, seed: Word): Word {
    Flip(Register(Flip(seed), data))
  }

  // ---------------------------------------------------------------- chaining

  lemma DropLast(a: seq<Byte>, b: seq<Byte>)
    requires b != []
    ensures (a + b)[..|a + b| - 1] == a + b[..|b| - 1] && (a + b)[|a + b| - 1] == b[|b| - 1]
  {
  }

  lemma RegisterStep(c: Word, data: seq<Byte>)
    requires data != []
    ensures Register(c, data) == ByteShift(Xor(Register(c, data[..|data| - 1]), ToWord(data[|data| - 1])))
  {
  }

  lemma {:induction false} RegisterChains(c: Word, a: seq<Byte>, b: seq<Byte>)
    ensures Register(c, a + b) == Register(Register(c, a), b)
  {
    if b == [] {
      assert a + b == a;
    } else {
      RegisterChains(c, a, b[..|b| - 1]);
      DropLast(a, b);
      RegisterStep(c, a + b);
      RegisterStep(Register(c, a), b);
    }
  }

  lemma FlipTwice(w: Word)
    ensures Flip(Flip(w)) == w
  {
  }

  /** Summing the pieces one after the other is summing the whole. */
  lemma CrcChains(a: seq<Byte>, b: seq<Byte>, seed: Word)
    ensures Crc(b, Crc(a, seed)) == Crc(a + b, seed)
  {
    FlipTwice(Register(Flip(seed), a));
    RegisterChains(Flip(seed), a, b);
  }

  // ---------------------------------------------------------------- the table

  lemma ShiftIsLinear(x: Word, y: Word)
    ensures Shift(Xor(x, y)) == Xor(Shift(x), Shift(y))
  {
    var a, b := Shift(Xor(x, y)), Xor(Shift(x), Shift(y));
    forall i | 0 <= i < 32 ensures a[i] == b[i] {
    }
  }

  lemma {:induction false} ShiftsAreLinear(x: Word, y: Word, k: nat)
    ensures Shifts(Xor(x, y), k) == Xor(Shifts(x, k), Shifts(y, k))
  {
    if k > 0 {
      ShiftsAreLinear(x, y, k - 1);
      ShiftIsLinear(Shifts(x, k - 1), Shifts(y, k - 1));
    }
  }

  lemma ClearBitShifts(x: Word)
    requires !x[0]
    ensures Shift(x) == Right(x, 1)
  {
    var a, b := Shift(x), Right(x, 1);
    forall i | 0 <= i < 32 ensures a[i] == b[i] {
    }
  }

  lemma RightAdds(x: Word, k: nat)
    ensures Right(Right(x, k), 1) == Right(x, k + 1)
  {
    var a, b := Right(Right(x, k), 1), Right(x, k + 1);
    forall i | 0 <= i < 32 ensures a[i] == b[i] {
    }
  }

  /** While the low bits are clear nothing is subtracted. */
  lemma {:induction false} ClearBitsShiftOut(x: Word, k: nat)
    requires k <= 8 && forall i | 0 <= i < k :: !x[i]
    ensures Shifts(x, k) == Right(x, k)
  {
    if k == 0 {
      assert Right(x, 0) == x;
    } else {
      ClearBitsShiftOut(x, k - 1);
      ClearBitShifts(Right(x, k - 1));
      RightAdds(x, k - 1);
    }
  }

  function High(x: Word): Word {
    seq(32, i requires 0 <= i < 32 => i >= 8 && x[i])
  }

  /** Eight bitwise steps are one table look-up. */
  lemma TableStep(x: Word)
    ensures ByteShift(x) == Xor(ByteShift(Low(x)), Right(x, 8))
  {
    assert x == Xor(Low(x), High(x));
    ShiftsAreLinear(Low(x), High(x), 8);
    ClearBitsShiftOut(High(x), 8);
    assert Right(High(x), 8) == Right(x, 8);
  }

  lemma {:induction false} BitsOfValue(n: nat, w: seq<bool>)
    requires |w| <= n
    ensures Bits(n, Value(w)) == w + seq(n - |w|, i => false)
  {
    if w != [] {
      BitsOfValue(n - 1, w[1..]);
    } else {
      ZeroBits(n);
    }
  }

  lemma {:induction false} ZeroBits(n: nat)
    ensures Bits(n, 0) == seq(n, i => false)
  {
    if n > 0 {
      ZeroBits(n - 1);
    }
  }

  function Pow2(n: nat): nat {
    if n == 0 then 1 else 2 * Pow2(n - 1)
  }

  lemma {:induction false} ValueBoundBy(w: seq<bool>, n: nat)
    requires |w| <= n
    ensures Value(w) < Pow2(n)
  {
    if w != [] {
      ValueBoundBy(w[1..], n - 1);
    } else if n > 0 {
      ValueBoundBy(w, n - 1);
    }
  }

  /** A checksum fits four bytes. */
  lemma WordBound(w: Word)
    ensures Value(w) < Pow256(4)
  {
    ValueBoundBy(w, 32);
    assert Pow2(8) == 0x100 && Pow2(16) == 0x1_0000 && Pow2(24) == 0x100_0000 && Pow2(32) == 0x1_0000_0000;
    assert Pow256(4) == 0x1_0000_0000;
  }

  /** The low byte as an index is the low byte as a word. */
  lemma IndexIsLow(x: Word)
    ensures Value(x[..8]) < 256 && ToWord(Value(x[..8])) == Low(x)
  {
    ValueBoundBy(x[..8], 8);
    BitsOfValue(32, x[..8]);
  }

  lemma {:induction false} BitsAbove(n: nat, v: nat, k: nat)
    requires k <= n && v < Pow2(k)
    ensures forall i | k <= i < n :: !Bits(n, v)[i]
  {
    if k == 0 {
      ZeroBits(n);
    } else {
      BitsAbove(n - 1, v / 2, k - 1);
    }
  }

  /** Mixing a byte in leaves the bits above it alone. */
  lemma ByteHasNoHighBits(c: Word, b: Byte)
    ensures Right(Xor(c, ToWord(b)), 8) == Right(c, 8)
  {
    BitsAbove(32, b, 8);
  }

  ghost predicate TableOk(t: array<Word>)
    reads t
  {
    t.Length == 256 && forall i | 0 <= i < 256 :: t[i] == ByteShift(ToWord(i))
  }

  lemma ShiftsStep(c: Word, k: nat)
    ensures Shifts(c, k + 1) == Xor(Right(Shifts(c, k), 1), if Shifts(c, k)[0] then POLY else Zero())
  {
  }

  lemma EightShifts(c: Word, k: nat)
    requires k == 8
    ensures Shifts(c, k) == ByteShift(c)
  {
  }

  method MakeTable() returns (table: array<Word>)
    ensures TableOk(table)
  {
    table := new Word[256](_ => Zero());
    for i := 0 to 256
      invariant forall j | 0 <= j < i :: table[j] == ByteShift(ToWord(j))
    {
      var crc := ToWord(i);
      var bit := 0;
      while bit < 8
        invariant bit <= 8 && crc == Shifts(ToWord(i), bit)
        invariant forall j | 0 <= j < i :: table[j] == ByteShift(ToWord(j))
      {
        ShiftsStep(ToWord(i), bit);
        crc := Xor(Right(crc, 1), if crc[0] then POLY else Zero());
        bit := bit + 1;
      }
      EightShifts(ToWord(i), bit);
      table[i] := crc;
    }
  }

  method Checksum(table: array<Word>, data: seq<Byte>, seed: Word) returns (r: Word)
    requires TableOk(table)
    ensures r == Crc(data, seed)
  {
    var crc := Flip(seed);
    for i := 0 to |data|
      invariant crc == Register(Flip(seed), data[..i])
    {
      var mixed := Xor(crc, ToWord(data[i]));
      IndexIsLow(mixed);
      TableStep(mixed);
      ByteHasNoHighBits(crc, data[i]);
      crc := Xor(table[Value(mixed[..8])], Right(crc, 8));
      assert data[..i + 1][..i] == data[..i];
    }
    assert data[..|data|] == data;
    r := Flip(crc);
  }
}
