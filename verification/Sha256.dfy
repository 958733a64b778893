/**
  Streaming hash: whatever pieces a message arrives in, the digest is that of the padded message
  (section 5.1.1 of FIPS 180-4). The compression function is a parameter.
 */
module Sha256s {
  import opened Bytes
  import opened Framing

  const BLOCK: nat := 64
  type Compress<!H> = (H, seq<Byte>) -> H

  /** The chaining value after whole blocks. */
  function Fold<H>(f: Compress<H>, h: H, s: seq<Byte>): H
    requires |s| % BLOCK == 0
    decreases |s|
  {
    if s == [] then h else Fold(f, f(h, s[..BLOCK]), s[BLOCK..])
  }

  function Zeros(n: nat): seq<Byte> {
    seq(n, i => 0)
  }

  /** Big-endian, `n` bytes. */
  function Be(n: nat, v: nat): (s: seq<Byte>)
    ensures |s| == n
  {
    if n == 0 then [] else Be(n - 1, v / 256) + [v % 256]
  }

  /** How many zeros bring a message of `n` bytes, its 0x80 and its length to whole blocks. */
  function Gap(n: nat): (k: nat)
    ensures (n + 1 + k + 8) % BLOCK == 0 && k < BLOCK
  {
    (119 - n % BLOCK) % BLOCK
  }

  function Trailer(n: nat): (s: seq<Byte>)
    ensures (n + |s|) % BLOCK == 0
  {
    [0x80] + Zeros(Gap(n)) + Be(8, n * 8 % TWO64)
  }

  function Pad(m: seq<Byte>): (s: seq<Byte>)
    ensures |s| % BLOCK == 0
  {
    m + Trailer(|m|)
  }

  /** The digest of a message, all at once. */
  function Digest<H>(f: Compress<H>, init: H, m: seq<Byte>): H {
    Fold(f, init, Pad(m))
  }

  function FromBe(s: seq<Byte>): nat {
    if s == [] then 0 else FromBe(s[..|s| - 1]) * 256 + s[|s| - 1]
  }

  lemma {:induction false} BeBack(n: nat, v: nat)
    requires v < Pow256(n)
    ensures FromBe(Be(n, v)) == v
  {
    if n > 0 {
      BeBack(n - 1, v / 256);
      assert Be(n, v)[..n - 1] == Be(n - 1, v / 256);
    }
  }

  lemma EightBytes()
    ensures Pow256(8) == TWO64
  {
    assert Pow256(4) == 0x1_0000_0000;
  }

  lemma PaddedShape(m: seq<Byte>, k: nat, len: seq<Byte>, s: seq<Byte>)
    requires |len| == 8 && s == m + ([0x80] + Zeros(k) + len)
    ensures |s| == |m| + 9 + k && s[..|m|] == m && s[|m|] == 0x80 && s[|s| - 8..] == len
    ensures forall i | |m| < i < |s| - 8 :: s[i] == 0
  {
  }

  lemma PadSplit(m: seq<Byte>) returns (k: nat, v: nat)
    ensures k < BLOCK && v == 8 * |m| % TWO64 && v < Pow256(8)
    ensures Pad(m) == m + ([0x80] + Zeros(k) + Be(8, v))
  {
    k, v := Gap(|m|), |m| * 8 % TWO64;
    EightBytes();
  }

  /**
    The padded message: the message, a one bit, as few zeros as bring the whole to full blocks, and the
    length in bits as a 64-bit big-endian number.
   */
  lemma PadMeans(m: seq<Byte>)
    ensures var s := Pad(m);
            && |s| >= |m| + 9 && |s| < |m| + 9 + BLOCK
            && s[..|m|] == m && s[|m|] == 0x80
            && (forall i | |m| < i < |s| - 8 :: s[i] == 0)
            && FromBe(s[|s| - 8..]) == 8 * |m| % TWO64
  {
    var k, v := PadSplit(m);
    BeBack(8, v);
    PaddedShape(m, k, Be(8, v), Pad(m));
  }

  /** No two messages that FIPS 180-4 allows are padded alike. */
  lemma PadIsInjective(a: seq<Byte>, b: seq<Byte>)
    requires 8 * |a| < TWO64 && 8 * |b| < TWO64 && Pad(a) == Pad(b)
    ensures a == b
  {
    PadMeans(a);
    PadMeans(b);
    assert a == Pad(a)[..|a|] == Pad(b)[..|b|] == b;
  }

  lemma OneBlockLess(n: nat, m: nat)
    requires n > 0 && n % BLOCK == 0 && m % BLOCK == 0
    ensures n >= BLOCK && (n - BLOCK) % BLOCK == 0 && (n + m) % BLOCK == 0 && (n + m - BLOCK) % BLOCK == 0
  {
  }

  lemma {:induction false} FoldChains<H>(f: Compress<H>, h: H, a: seq<Byte>, b: seq<Byte>)
    requires |a| % BLOCK == 0 && |b| % BLOCK == 0
    ensures (|a| + |b|) % BLOCK == 0 && Fold(f, h, a + b) == Fold(f, Fold(f, h, a), b)
    decreases |a|
  {
    if a == [] {
      assert a + b == b;
    } else {
      OneBlockLess(|a|, |b|);
      FoldChains(f, f(h, a[..BLOCK]), a[BLOCK..], b);
      assert (a + b)[..BLOCK] == a[..BLOCK] && (a + b)[BLOCK..] == a[BLOCK..] + b;
    }
  }

  lemma FoldOne<H>(f: Compress<H>, h: H, s: seq<Byte>)
    requires |s| == BLOCK
    ensures Fold(f, h, s) == f(h, s)
  {
    assert s[..BLOCK] == s && s[BLOCK..] == [];
  }

  class Sha256<H> {
    const compress: Compress<H>
    const init: H
    const buffer: array<Byte>
    var state: H
    var bufferLen: nat
    var totalLen: nat
    /** Everything fed so far. */
    ghost var fed: seq<Byte>

    /** `m` is absorbed: its whole blocks in the state, the rest waiting in the buffer. */
    ghost predicate Holds(m: seq<Byte>)
      reads this, buffer
    {
      && buffer.Length == BLOCK && bufferLen <= BLOCK && bufferLen <= |m|
      && (|m| - bufferLen) % BLOCK == 0
      && state == Fold(compress, init, m[..|m| - bufferLen])
      && buffer[..bufferLen] == m[|m| - bufferLen..]
    }

    ghost predicate Valid()
      reads this, buffer
    {
      Holds(fed) && bufferLen < BLOCK && totalLen == |fed| % TWO64
    }

    constructor (f: Compress<H>, h: H)
      ensures Valid() && fresh(buffer) && fed == [] && compress == f && init == h
    {
      compress, init, state, bufferLen, totalLen, fed := f, h, h, 0, 0, [];
      buffer := new Byte[BLOCK](_ => 0);
    }

    method Push(b: Byte, ghost m: seq<Byte>)
      requires Holds(m) && bufferLen < BLOCK
      modifies this`bufferLen, buffer
      ensures Holds(m + [b]) && bufferLen == old(bufferLen) + 1
    {
      ghost var before, n := buffer[..bufferLen], |m| - bufferLen;
      buffer[bufferLen] := b;
      bufferLen := bufferLen + 1;
      assert buffer[..bufferLen] == before + [b];
      assert (m + [b])[n..] == m[n..] + [b] && (m + [b])[..n] == m[..n];
    }

    /** A full buffer goes into the state. */
    method ProcessBuffer(ghost m: seq<Byte>)
      requires Holds(m) && bufferLen == BLOCK
      modifies this`state, this`bufferLen
      ensures Holds(m) && bufferLen == 0
    {
      ghost var n := |m| - BLOCK;
      Absorbs(compress, init, m[..n], m[n..]);
      assert m[..n] + m[n..] == m && buffer[..] == buffer[..BLOCK];
      state := compress(state, buffer[..]);
      bufferLen := 0;
      assert m[..|m|] == m;
    }

    /** A whole block goes straight from the input into the state. */
    method ProcessInput(block: seq<Byte>, ghost m: seq<Byte>)
      requires Holds(m) && bufferLen == 0 && |block| == BLOCK
      modifies this`state
      ensures Holds(m + block)
    {
      assert m[..|m|] == m && (m + block)[..|m + block|] == m + block;
      Absorbs(compress, init, m, block);
      state := compress(state, block);
    }

    method Update(data: seq<Byte>)
      requires Valid()
      modifies this, buffer
      ensures Valid() && fed == old(fed) + data
    {
      LengthWraps(|fed|, |data|);
      totalLen := (totalLen + |data|) % TWO64;
      Absorb(data);
      fed := fed + data;
    }

    /** Fills the buffer from the input as far as either goes, and processes it if it is full. */
    method TopUp(data: seq<Byte>) returns (offset: nat)
      requires Holds(fed) && 0 < bufferLen < BLOCK
      modifies this`state, this`bufferLen, buffer
      ensures offset <= |data| && Holds(fed + data[..offset]) && bufferLen < BLOCK
      ensures bufferLen == 0 || offset == |data|
    {
      offset := 0;
      assert fed + data[..0] == fed;
      while bufferLen < BLOCK && offset < |data|
        invariant offset <= |data| && bufferLen <= BLOCK && Holds(fed + data[..offset])
      {
        Push(data[offset], fed + data[..offset]);
        Extend(fed, data, offset, 1);
        offset := offset + 1;
      }
      if bufferLen == BLOCK {
        ProcessBuffer(fed + data[..offset]);
      }
    }

    method TakeBlocks(data: seq<Byte>, from: nat) returns (offset: nat)
      requires from <= |data| && Holds(fed + data[..from]) && bufferLen == 0
      modifies this`state
      ensures from <= offset <= |data| && Holds(fed + data[..offset]) && |data| - offset < BLOCK
    {
      offset := from;
      while |data| - offset >= BLOCK
        invariant from <= offset <= |data| && Holds(fed + data[..offset])
      {
        ProcessInput(data[offset..offset + BLOCK], fed + data[..offset]);
        Extend(fed, data, offset, BLOCK);
        offset := offset + BLOCK;
      }
    }

    method KeepRest(data: seq<Byte>, from: nat)
      requires from <= |data| && Holds(fed + data[..from]) && bufferLen + (|data| - from) < BLOCK
      modifies this`bufferLen, buffer
      ensures Holds(fed + data) && bufferLen < BLOCK
    {
      var offset := from;
      while offset < |data|
        invariant offset <= |data| && bufferLen + (|data| - offset) < BLOCK && Holds(fed + data[..offset])
      {
        Push(data[offset], fed + data[..offset]);
        Extend(fed, data, offset, 1);
        offset := offset + 1;
      }
      assert data[..offset] == data;
    }

    /** Tops the buffer up, takes whole blocks from the input, keeps the rest. */
    method Absorb(data: seq<Byte>)
      requires Holds(fed) && bufferLen < BLOCK
      modifies this`state, this`bufferLen, buffer
      ensures Holds(fed + data) && bufferLen < BLOCK
    {
      var offset := 0;
      assert fed + data[..0] == fed;
      if bufferLen > 0 {
        offset := TopUp(data);
      }
      if bufferLen == 0 {
        offset := TakeBlocks(data, offset);
      }
      KeepRest(data, offset);
    }

    method PushZeros(upTo: nat, ghost m: seq<Byte>) returns (ghost k: nat)
      requires Holds(m) && bufferLen <= upTo <= BLOCK
      modifies this`bufferLen, buffer
      ensures bufferLen == upTo && k == upTo - old(bufferLen) && Holds(m + Zeros(k))
    {
      k := 0;
      assert m + Zeros(0) == m;
      while bufferLen < upTo
        invariant bufferLen <= upTo && k == bufferLen - old(bufferLen) && Holds(m + Zeros(k))
      {
        Push(0, m + Zeros(k));
        assert m + Zeros(k) + [0] == m + Zeros(k + 1);
        k := k + 1;
      }
    }

    method PushLength(bits: nat, ghost m: seq<Byte>, ghost be: seq<Byte>)
      requires Holds(m) && bufferLen == BLOCK - 8 && Spells(be, bits)
      modifies this`bufferLen, buffer
      ensures bufferLen == BLOCK && Holds(m + be)
    {
      assert m + be[..0] == m;
      for i := 0 to 8
        invariant bufferLen == BLOCK - 8 + i && Holds(m + be[..i])
      {
        assert be[i] == bits / Pow256(7 - i) % 256;
        Push(bits / Pow256(7 - i) % 256, m + be[..i]);
        assert m + be[..i] + [be[i]] == m + be[..i + 1];
      }
      assert be[..8] == be;
    }

    /** Closes the message; the object is spent. */
    method Finish() returns (digest: H)
      requires Valid()
      modifies this, buffer
      ensures digest == Digest(compress, init, old(fed))
    {
      BitsWrap(|fed|);
      var bits := totalLen * 8 % TWO64;
      ghost var k := PushPadding();
      ghost var all := fed + [0x80] + Zeros(k);
      PadIs(fed, k, all, bits);
      BeSpells(bits);
      PushLength(bits, all, Be(8, bits));
      ProcessBuffer(Pad(fed));
      assert Pad(fed)[..|Pad(fed)|] == Pad(fed);
      digest := state;
    }

    /** The 0x80 and the zeros that leave room for the length. */
    method PushPadding() returns (ghost k: nat)
      requires Holds(fed) && bufferLen < BLOCK
      modifies this`state, this`bufferLen, buffer
      ensures bufferLen == BLOCK - 8 && k < BLOCK
      ensures Holds(fed + [0x80] + Zeros(k))
    {
      ghost var m := fed + [0x80];
      k := 0;
      Push(0x80, fed);
      assert m + Zeros(0) == m;
      if bufferLen > BLOCK - 8 {
        k := PushZeros(BLOCK, m);
        ProcessBuffer(m + Zeros(k));
      }
      ghost var j := PushZeros(BLOCK - 8, m + Zeros(k));
      assert m + Zeros(k) + Zeros(j) == m + Zeros(k + j);
      k := k + j;
    }
  }

  lemma Absorbs<H>(f: Compress<H>, h: H, a: seq<Byte>, b: seq<Byte>)
    requires |a| % BLOCK == 0 && |b| == BLOCK
    ensures (|a| + |b|) % BLOCK == 0 && Fold(f, h, a + b) == f(Fold(f, h, a), b)
  {
    FoldChains(f, h, a, b);
    FoldOne(f, Fold(f, h, a), b);
  }

  lemma Extend(m: seq<Byte>, data: seq<Byte>, at: nat, n: nat)
    requires at + n <= |data|
    ensures m + data[..at] + data[at..at + n] == m + data[..at + n]
    ensures n == 1 ==> m + data[..at] + [data[at]] == m + data[..at + n]
  {
  }

  lemma {:induction false} BeAt(n: nat, v: nat, i: nat)
    requires i < n
    ensures Be(n, v)[i] == v / Pow256(n - 1 - i) % 256
  {
    if i < n - 1 {
      BeAt(n - 1, v / 256, i);
      DivDiv(v, n - 2 - i);
    }
  }

  /** The eight bytes of `v`, most significant first. */
  ghost predicate Spells(be: seq<Byte>, v: nat) {
    |be| == 8 && forall i | 0 <= i < 8 :: be[i] == v / Pow256(7 - i) % 256
  }

  lemma BeSpells(v: nat)
    ensures Spells(Be(8, v), v)
  {
    forall i | 0 <= i < 8 ensures Be(8, v)[i] == v / Pow256(7 - i) % 256 {
      BeAt(8, v, i);
    }
  }

  lemma DivDiv(v: nat, k: nat)
    ensures v / 256 / Pow256(k) == v / Pow256(k + 1)
  {
    var p := Pow256(k);
    var q := v / 256 / p;
    assert v / 256 == q * p + v / 256 % p;
    assert v == 256 * (v / 256) + v % 256;
    assert v == q * (256 * p) + (256 * (v / 256 % p) + v % 256);
    assert 256 * (v / 256 % p) + v % 256 < 256 * p;
    QuotientIs(v, 256 * p, q, 256 * (v / 256 % p) + v % 256);
  }

  lemma QuotientIs(v: nat, d: nat, q: nat, r: nat)
    requires d > 0 && v == q * d + r && r < d
    ensures v / d == q
  {
    var q', r' := v / d, v % d;
    assert v == q' * d + r';
    assert q' < q ==> (q' + 1) * d <= q * d;
    assert q < q' ==> (q + 1) * d <= q' * d;
  }

  lemma ModShift(x: nat, k: nat, d: nat)
    requires d > 0
    ensures (k * d + x) % d == x % d
  {
    var q := x / d;
    assert x == q * d + x % d;
    assert k * d + x == (k + q) * d + x % d;
    QuotientIs(k * d + x, d, k + q, x % d);
  }

  lemma LengthWraps(a: nat, b: nat)
    ensures (a % TWO64 + b) % TWO64 == (a + b) % TWO64
  {
    ModShift(a % TWO64 + b, a / TWO64, TWO64);
  }

  lemma BitsWrap(n: nat)
    ensures n % TWO64 * 8 % TWO64 == n * 8 % TWO64
  {
    ModShift(n % TWO64 * 8, n / TWO64 * 8, TWO64);
  }

  lemma RoomForLength(n: nat)
    requires n >= BLOCK - 8 && (n - (BLOCK - 8)) % BLOCK == 0
    ensures (n + 8) % BLOCK == 0
  {
  }

  lemma GapIs(n: nat, k: nat)
    requires (n + 1 + k + 8) % BLOCK == 0 && k < BLOCK
    ensures k == Gap(n)
  {
  }

  lemma Regroup(m: seq<Byte>, a: seq<Byte>, b: seq<Byte>, c: seq<Byte>)
    ensures m + a + b + c == m + (a + b + c)
  {
  }

  /** The zeros written are the zeros the padding asks for. */
  lemma PadIs(m: seq<Byte>, k: nat, all: seq<Byte>, bits: nat)
    requires all == m + [0x80] + Zeros(k) && k < BLOCK && bits == |m| * 8 % TWO64
    requires |all| >= BLOCK - 8 && (|all| - (BLOCK - 8)) % BLOCK == 0
    ensures all + Be(8, bits) == Pad(m)
  {
    RoomForLength(|all|);
    GapIs(|m|, k);
    Regroup(m, [0x80], Zeros(k), Be(8, bits));
  }

  /** However a message is cut into pieces, hashing the pieces is hashing the message. */
  method HashPieces<H>(f: Compress<H>, init: H, pieces: seq<seq<Byte>>) returns (digest: H)
    ensures digest == Digest(f, init, Concat(pieces))
  {
    var hasher := new Sha256<H>(f, init);
    for i := 0 to |pieces|
      invariant hasher.Valid() && fresh(hasher) && fresh(hasher.buffer)
      invariant hasher.compress == f && hasher.init == init && hasher.fed == Concat(pieces[..i])
    {
      assert pieces[..i + 1][..i] == pieces[..i];
      hasher.Update(pieces[i]);
    }
    assert pieces[..|pieces|] == pieces;
    digest := hasher.Finish();
  }
}
