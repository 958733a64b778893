/** What the checksum is for: no damage confined to four bytes in a row goes unnoticed. */
module CrcDetection {
  import opened Bytes
  import opened Crc32c

  // ---------------------------------------------------------------- bits of numbers

  lemma {:induction false} ValueOfBits(n: nat, v: nat)
    requires v < Pow2(n)
    ensures Value(Bits(n, v)) == v
  {
    if n > 0 {
      ValueOfBits(n - 1, v / 2);
      assert Bits(n, v)[1..] == Bits(n - 1, v / 2);
    }
  }

  lemma BytesDiffer(a: Byte, b: Byte)
    requires ToWord(a) == ToWord(b)
    ensures a == b
  {
    BitsAbove(32, a, 8);
    assert Pow2(8) == 256;
    Pow2Grows(8, 32);
    ValueOfBits(32, a);
    ValueOfBits(32, b);
  }

  lemma {:induction false} Pow2Grows(i: nat, j: nat)
    requires i <= j
    ensures Pow2(i) <= Pow2(j)
    decreases j
  {
    if i < j {
      Pow2Grows(i, j - 1);
    }
  }

  lemma {:induction false} TopBit(n: nat, v: nat)
    requires n >= 1 && Pow2(n - 1) <= v < Pow2(n)
    ensures Bits(n, v)[n - 1]
  {
    if n > 1 {
      TopBit(n - 1, v / 2);
    }
  }

  lemma TopPowers()
    ensures Pow2(31) == 0x8000_0000 && Pow2(32) == 0x1_0000_0000
  {
    assert Pow2(8) == 0x100 && Pow2(16) == 0x1_0000 && Pow2(24) == 0x100_0000;
  }

  /** The register has the polynomial's top coefficient in its top bit. */
  lemma PolyTop()
    ensures POLY[31]
  {
    TopPowers();
    TopBit(32, 0x82F63B78);
  }

  // ---------------------------------------------------------------- going back

  /** Everything in the word lies in its bits `lo` to `hi`. */
  predicate Within(w: Word, lo: int, hi: int) {
    forall i | 0 <= i < 32 && !(lo <= i < hi) :: !w[i]
  }

  lemma DividedBack(w: Word, poly: Word, u: Word, lo: nat, hi: nat)
    requires poly[31] && u == Xor(Right(w, 1), if w[0] then poly else Zero())
    requires hi < 32 && Within(u, lo, hi)
    ensures Within(w, lo + 1, hi + 1)
  {
    assert u[31] == w[0];
    forall i | 0 <= i < 32 && !(lo + 1 <= i < hi + 1) ensures !w[i] {
      if i > 0 {
        assert u[i - 1] == w[i];
      }
    }
  }

  /** What is shifted out at the bottom shows at the top. */
  lemma ShiftBack(w: Word, lo: nat, hi: nat)
    requires hi < 32 && Within(Shift(w), lo, hi)
    ensures Within(w, lo + 1, hi + 1)
  {
    PolyTop();
    DividedBack(w, POLY, Shift(w), lo, hi);
  }

  lemma {:induction false} ShiftsBack(w: Word, k: nat, lo: nat, hi: nat)
    requires hi + k <= 32 && Within(Shifts(w, k), lo, hi)
    ensures Within(w, lo + k, hi + k)
  {
    if k > 0 {
      ShiftBack(Shifts(w, k - 1), lo, hi);
      ShiftsBack(w, k - 1, lo + 1, hi + 1);
    }
  }

  lemma ByteShiftBack(w: Word, hi: nat)
    requires hi <= 24 && Within(ByteShift(w), 0, hi)
    ensures Within(w, 8, hi + 8)
  {
    ShiftsBack(w, 8, 0, hi);
  }

  /** Two registers differ by `Xor(c, d)`, and so do they after the same eight steps. */
  lemma DifferenceShifts(c: Word, d: Word)
    ensures ByteShift(Xor(c, d)) == Xor(ByteShift(c), ByteShift(d))
  {
    ShiftsAreLinear(c, d, 8);
  }

  lemma SameIffZero(c: Word, d: Word)
    ensures c == d <==> Within(Xor(c, d), 0, 0)
  {
    if Within(Xor(c, d), 0, 0) {
      forall i | 0 <= i < 32 ensures c[i] == d[i] {
        assert !Xor(c, d)[i];
      }
    }
  }

  // ---------------------------------------------------------------- one more byte, from the front

  lemma RegisterFront(c: Word, data: seq<Byte>)
    requires data != []
    ensures Register(c, data) == Register(ByteShift(Xor(c, ToWord(data[0]))), data[1..])
  {
    var one := [data[0]];
    assert data == one + data[1..];
    RegisterChains(c, one, data[1..]);
    RegisterStep(c, one);
    assert one[..0] == [];
  }

  lemma MixedBytes(c: Word, d: Word, a: Byte, b: Byte, hi: nat)
    requires 8 <= hi <= 32 && Within(Xor(Xor(c, ToWord(a)), Xor(d, ToWord(b))), 8, hi)
    ensures Within(Xor(c, d), 0, hi)
    ensures c == d ==> a == b
  {
    BitsAbove(32, a, 8);
    BitsAbove(32, b, 8);
    assert Pow2(8) == 256;
    var x := Xor(Xor(c, ToWord(a)), Xor(d, ToWord(b)));
    forall i | 0 <= i < 32 && !(0 <= i < hi) ensures !Xor(c, d)[i] {
      assert !x[i];
    }
    if c == d {
      forall i | 0 <= i < 32 ensures ToWord(a)[i] == ToWord(b)[i] {
        assert i < 8 ==> !x[i];
      }
      BytesDiffer(a, b);
    }
  }

  /** Equal ends of up to four bytes: the starts differed in the bits those bytes can reach, or not at all. */
  lemma {:induction false} EqualEnds(c: Word, d: Word, a: seq<Byte>, b: seq<Byte>)
    requires |a| == |b| <= 4 && Register(c, a) == Register(d, b)
    ensures Within(Xor(c, d), 0, 8 * |a|)
    ensures c == d ==> a == b
    decreases |a|
  {
    if a == [] {
      SameIffZero(c, d);
    } else {
      var x, y := Xor(c, ToWord(a[0])), Xor(d, ToWord(b[0]));
      RegisterFront(c, a);
      RegisterFront(d, b);
      EqualEnds(ByteShift(x), ByteShift(y), a[1..], b[1..]);
      DifferenceShifts(x, y);
      ByteShiftBack(Xor(x, y), 8 * (|a| - 1));
      MixedBytes(c, d, a[0], b[0], 8 * |a|);
      assert a == [a[0]] + a[1..] && b == [b[0]] + b[1..];
    }
  }

  /** The same bytes never make different registers equal. */
  lemma {:induction false} DifferenceStays(c: Word, d: Word, data: seq<Byte>)
    requires Register(c, data) == Register(d, data)
    ensures c == d
  {
    if data != [] {
      var n := |data| - 1;
      var last := data[n..];
      assert data == data[..n] + last;
      RegisterChains(c, data[..n], last);
      RegisterChains(d, data[..n], last);
      OneByteKeeps(Register(c, data[..n]), Register(d, data[..n]), last[0]);
      assert last == [last[0]];
      DifferenceStays(c, d, data[..n]);
    }
  }

  lemma OneByteKeeps(c: Word, d: Word, b: Byte)
    requires Register(c, [b]) == Register(d, [b])
    ensures c == d
  {
    var x, y := Xor(c, ToWord(b)), Xor(d, ToWord(b));
    assert [b][..0] == [];
    RegisterStep(c, [b]);
    RegisterStep(d, [b]);
    SameIffZero(ByteShift(x), ByteShift(y));
    DifferenceShifts(x, y);
    ByteShiftBack(Xor(x, y), 0);
    forall i | 0 <= i < 32 ensures c[i] == d[i] {
      assert !Xor(x, y)[i];
    }
  }

  /** Replacing up to four bytes in a row by others always changes the checksum. */
  lemma BurstChangesCrc(pre: seq<Byte>, a: seq<Byte>, b: seq<Byte>, post: seq<Byte>, seed: Word)
    requires |a| == |b| <= 4 && a != b
    ensures Crc(pre + a + post, seed) != Crc(pre + b + post, seed)
  {
    var c := Register(Flip(seed), pre);
    RegisterChains(Flip(seed), pre + a, post);
    RegisterChains(Flip(seed), pre + b, post);
    RegisterChains(Flip(seed), pre, a);
    RegisterChains(Flip(seed), pre, b);
    if Crc(pre + a + post, seed) == Crc(pre + b + post, seed) {
      FlipTwice(Register(Flip(seed), pre + a + post));
      FlipTwice(Register(Flip(seed), pre + b + post));
      DifferenceStays(Register(c, a), Register(c, b), post);
      EqualEnds(c, c, a, b);
    }
  }

  lemma SameValue(v: Word, w: Word)
    requires Value(v) == Value(w)
    ensures v == w
  {
    BitsOfValue(32, v);
    BitsOfValue(32, w);
    assert v + [] == v && w + [] == w;
  }
}
