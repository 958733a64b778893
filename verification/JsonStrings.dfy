/** Which texts are strings, and what they denote (section 7 of RFC 8259). */
module JsonStrings {
  import opened Common
  import opened RaftTypes
  import opened Json

  /** One character of a string literal: as it is, after a backslash, or as one or two `\u` units. */
  datatype Piece = Plain(c: char) | Short(c: char) | Unit(hex: string) | Pair(high: string, low: string)

  predicate HexDigits(h: string) {
    |h| == 4 && HexValue(h[0]).Some? && HexValue(h[1]).Some? && HexValue(h[2]).Some? && HexValue(h[3]).Some?
  }

  function HexNumber(h: string): (n: nat)
    requires HexDigits(h)
    ensures n < 0x1_0000
  {
    HexValue(h[0]).value * 0x1000 + HexValue(h[1]).value * 0x100 + HexValue(h[2]).value * 0x10 + HexValue(h[3]).value
  }

  predicate IsHigh(n: nat) {
    0xD800 <= n <= 0xDBFF
  }

  predicate IsLow(n: nat) {
    0xDC00 <= n <= 0xDFFF
  }

  /** Control characters may stand unescaped and a low surrogate alone, which the standard does not allow. */
  predicate ValidPiece(p: Piece) {
    match p
    case Plain(c) => c != '"' && c != '\\'
    case Short(c) => c in "\"\\/bfnrt"
    case Unit(h) => HexDigits(h) && !IsHigh(HexNumber(h))
    case Pair(h, l) => HexDigits(h) && HexDigits(l) && IsHigh(HexNumber(h)) && IsLow(HexNumber(l))
  }

  type Good = p: Piece | ValidPiece(p) witness Plain('a')

  function PieceText(p: Piece): string {
    match p
    case Plain(c) => [c]
    case Short(c) => "\\" + [c]
    case Unit(h) => "\\u" + h
    case Pair(h, l) => "\\u" + (h + ("\\u" + l))
  }

  /** The code point of a surrogate pair. */
  function Point(high: nat, low: nat): (cp: nat)
    requires IsHigh(high) && IsLow(low)
    ensures cp < 0x11_0000
  {
    0x1_0000 + (high - 0xD800) * 0x400 + (low - 0xDC00)
  }

  function ShortMeaning(c: char): string {
    match c
    case 'b' => [8 as char]
    case 'f' => [12 as char]
    case 'n' => [10 as char]
    case 'r' => [13 as char]
    case 't' => [9 as char]
    case _ => [c]
  }

  function PieceMeaning(p: Good): string {
    match p
    case Plain(c) => [c]
    case Short(c) => ShortMeaning(c)
    case Unit(h) => Utf8(HexNumber(h))
    case Pair(h, l) => Utf8(Point(HexNumber(h), HexNumber(l)))
  }

  function PiecesText(ps: seq<Good>): string {
    if ps == [] then [] else PieceText(ps[0]) + PiecesText(ps[1..])
  }

  function PiecesMeaning(ps: seq<Good>): string {
    if ps == [] then [] else PieceMeaning(ps[0]) + PiecesMeaning(ps[1..])
  }

  // ---------------------------------------------------------------- every such text is read

  lemma Hex4Reads(h: string, rest: string)
    requires HexDigits(h)
    ensures Hex4(h + rest) == Some((HexNumber(h), rest))
  {
    var s := h + rest;
    assert s[0] == h[0] && s[1] == h[1] && s[2] == h[2] && s[3] == h[3] && s[4..] == rest;
  }

  lemma UnitReads(h: string, rest: string)
    requires ValidPiece(Unit(h))
    ensures Unicode(h + rest) == Some((Utf8(HexNumber(h)), rest))
  {
    Hex4Reads(h, rest);
  }

  lemma PairReads(h: string, l: string, rest: string)
    requires ValidPiece(Pair(h, l))
    ensures Unicode(h + ("\\u" + (l + rest))) == Some((Utf8(Point(HexNumber(h), HexNumber(l))), rest))
  {
    var t := "\\u" + (l + rest);
    Hex4Reads(h, t);
    assert "\\u" <= t && t[2..] == l + rest;
    Hex4Reads(l, rest);
  }

  lemma ShortEscape(c: char, rest: string)
    requires c in "\"\\/bfnrt"
    ensures Escape([c] + rest) == Some((ShortMeaning(c), rest))
  {
    assert ([c] + rest)[1..] == rest;
  }

  lemma UnitEscape(s: string)
    ensures Escape("u" + s) == Unicode(s)
  {
    assert ("u" + s)[1..] == s;
  }

  lemma PieceSplits(p: Piece, rest: string)
    requires !p.Plain?
    ensures PieceText(p) + rest ==
            "\\" + match p
                   case Short(c) => [c] + rest
                   case Unit(h) => "u" + (h + rest)
                   case Pair(h, l) => "u" + (h + ("\\u" + (l + rest)))
  {
    match p
    case Short(c) => Assoc("\\", [c], rest);
    case Unit(h) =>
    case Pair(h, l) =>
      Assoc(h, "\\u" + l, rest);
      Assoc("\\u", l, rest);
      Assoc("\\u", h + ("\\u" + l), rest);
  }

  lemma EscapeReads(p: Good, rest: string)
    requires !p.Plain?
    ensures var s := PieceText(p) + rest;
            s != [] && s[0] == '\\' && Escape(s[1..]) == Some((PieceMeaning(p), rest))
  {
    PieceSplits(p, rest);
    match p
    case Short(c) => ShortEscape(c, rest);
    case Unit(h) =>
      UnitEscape(h + rest);
      UnitReads(h, rest);
    case Pair(h, l) =>
      UnitEscape(h + ("\\u" + (l + rest)));
      PairReads(h, l, rest);
  }

  lemma PieceReads(p: Good, rest: string, acc: string)
    ensures StringRest(PieceText(p) + rest, acc) == StringRest(rest, acc + PieceMeaning(p))
  {
    if p.Plain? {
      assert (PieceText(p) + rest)[1..] == rest;
    } else {
      EscapeReads(p, rest);
    }
  }

  lemma {:induction false} PiecesRead(ps: seq<Good>, rest: string, acc: string)
    ensures StringRest(PiecesText(ps) + ("\"" + rest), acc) == Some((acc + PiecesMeaning(ps), rest))
    decreases |ps|
  {
    var t := "\"" + rest;
    if ps == [] {
      assert PiecesText(ps) + t == t && t[1..] == rest && acc + PiecesMeaning(ps) == acc;
    } else {
      Assoc(PieceText(ps[0]), PiecesText(ps[1..]), t);
      PieceReads(ps[0], PiecesText(ps[1..]) + t, acc);
      PiecesRead(ps[1..], rest, acc + PieceMeaning(ps[0]));
      Assoc(acc, PieceMeaning(ps[0]), PiecesMeaning(ps[1..]));
    }
  }

  // ---------------------------------------------------------------- and nothing else

  lemma Hex4Are(s: string)
    requires Hex4(s).Some?
    ensures HexDigits(s[..4]) && s == s[..4] + Hex4(s).value.1 && Hex4(s).value.0 == HexNumber(s[..4])
  {
  }

  lemma PairNumbers(s: string, t: string, w: string)
    requires Unicode(s).Some? && IsHigh(Hex4(s).value.0) && t == Hex4(s).value.1 && (|t| >= 2 ==> w == t[2..])
    ensures t == "\\u" + w && Hex4(w).Some? && IsLow(Hex4(w).value.0)
    ensures Unicode(s).value == (Utf8(Point(Hex4(s).value.0, Hex4(w).value.0)), Hex4(w).value.1)
  {
  }

  lemma PairOf(s: string) returns (p: Piece)
    requires Unicode(s).Some? && IsHigh(Hex4(s).value.0)
    ensures ValidPiece(p) && p.Pair? && PieceMeaning(p) == Unicode(s).value.0
    ensures s == p.high + ("\\u" + (p.low + Unicode(s).value.1))
  {
    var t := Hex4(s).value.1;
    var w := t[2..];
    PairNumbers(s, t, w);
    Hex4Are(s);
    Hex4Are(w);
    p := Pair(s[..4], w[..4]);
    PairMeans(s[..4], w[..4], Point(Hex4(s).value.0, Hex4(w).value.0));
  }

  lemma UnicodeOf(s: string) returns (p: Piece)
    requires Unicode(s).Some?
    ensures ValidPiece(p) && PieceMeaning(p) == Unicode(s).value.0
    ensures "\\" + ("u" + s) == PieceText(p) + Unicode(s).value.1
  {
    var rest := Unicode(s).value.1;
    if IsHigh(Hex4(s).value.0) {
      p := PairOf(s);
    } else {
      Hex4Are(s);
      p := Unit(s[..4]);
    }
    PieceSplits(p, rest);
  }

  lemma ShortOf(s: string)
    requires s != [] && s[0] != 'u' && Escape(s).Some?
    ensures s[0] in "\"\\/bfnrt" && Escape(s).value == (ShortMeaning(s[0]), s[1..])
  {
  }

  lemma EscapeOf(s: string) returns (p: Piece)
    requires Escape(s).Some?
    ensures ValidPiece(p) && PieceMeaning(p) == Escape(s).value.0
    ensures "\\" + s == PieceText(p) + Escape(s).value.1
  {
    assert s == [s[0]] + s[1..];
    if s[0] == 'u' {
      UnitEscape(s[1..]);
      p := UnicodeOf(s[1..]);
    } else {
      ShortOf(s);
      p := Short(s[0]);
      PieceSplits(p, s[1..]);
    }
  }

  lemma OneMore(p: Good, ps: seq<Good>, t: string, rest: string)
    requires t == PiecesText(ps) + rest
    ensures PieceText(p) + t == PiecesText([p] + ps) + rest
    ensures PiecesMeaning([p] + ps) == PieceMeaning(p) + PiecesMeaning(ps)
  {
    assert ([p] + ps)[1..] == ps;
    Assoc(PieceText(p), PiecesText(ps), rest);
  }

  lemma {:induction false} ReadIsPieces(s: string, acc: string) returns (ps: seq<Good>)
    requires StringRest(s, acc).Some?
    ensures s == PiecesText(ps) + ("\"" + StringRest(s, acc).value.1)
    ensures StringRest(s, acc).value.0 == acc + PiecesMeaning(ps)
    decreases |s|
  {
    if s[0] == '"' {
      ps := [];
      assert PiecesText(ps) + ("\"" + s[1..]) == s && acc + PiecesMeaning(ps) == acc;
    } else {
      var p, t;
      if s[0] == '\\' {
        p := EscapeOf(s[1..]);
        t := Escape(s[1..]).value.1;
        assert s == "\\" + s[1..];
      } else {
        p := Plain(s[0]);
        t := s[1..];
        assert s == [s[0]] + t;
      }
      var qs := ReadIsPieces(t, acc + PieceMeaning(p));
      OneMore(p, qs, t, "\"" + StringRest(s, acc).value.1);
      Assoc(acc, PieceMeaning(p), PiecesMeaning(qs));
      ps := [p] + qs;
    }
  }

  // ---------------------------------------------------------------- code points

  /** The code point some bytes stand for, by the table in section 3 of RFC 3629. */
  function Decoded(b: string): int {
    if |b| == 1 then b[0] as int
    else if |b| == 2 then (b[0] as int - 0xC0) * 0x40 + (b[1] as int - 0x80)
    else if |b| == 3 then (b[0] as int - 0xE0) * 0x1000 + (b[1] as int - 0x80) * 0x40 + (b[2] as int - 0x80)
    else if |b| == 4 then
      (b[0] as int - 0xF0) * 0x4_0000 + (b[1] as int - 0x80) * 0x1000 + (b[2] as int - 0x80) * 0x40 + (b[3] as int - 0x80)
    else -1
  }

  /** How many bytes a code point takes, and the range its first byte lies in. */
  predicate LeadFits(cp: nat, n: nat, lead: int) {
    match n
    case 1 => cp <= 0x7F && 0 <= lead <= 0x7F
    case 2 => 0x80 <= cp <= 0x7FF && 0xC2 <= lead <= 0xDF
    case 3 => 0x800 <= cp <= 0xFFFF && 0xE0 <= lead <= 0xEF
    case 4 => 0x1_0000 <= cp && 0xF0 <= lead <= 0xF4
    case _ => false
  }

  lemma Sixes(cp: nat)
    ensures cp / 0x1000 == cp / 0x40 / 0x40 && cp / 0x4_0000 == cp / 0x40 / 0x40 / 0x40
    ensures cp == cp / 0x40 * 0x40 + cp % 0x40
  {
  }

  /** Every code point is written in the shortest form, and decodes to itself. */
  lemma Utf8IsShortest(cp: nat)
    requires cp < 0x11_0000
    ensures var b := Utf8(cp);
            && Decoded(b) == cp && |b| >= 1 && LeadFits(cp, |b|, b[0] as int)
            && forall i | 1 <= i < |b| :: 0x80 <= b[i] as int <= 0xBF
  {
    Sixes(cp);
    Sixes(cp / 0x40);
    Sixes(cp / 0x40 / 0x40);
  }

  function Hex(n: nat): (h: string)
    requires n < 0x1_0000
    ensures |h| == 4
  {
    [HexChar(n / 16 / 16 / 16), HexChar(n / 16 / 16 % 16), HexChar(n / 16 % 16), HexChar(n % 16)]
  }

  lemma HexDigitBack(d: nat)
    requires d < 16
    ensures HexValue(HexChar(d)) == Some(d)
  {
  }

  lemma HexOf(h: string, a: nat, b: nat, c: nat, d: nat)
    requires a < 16 && b < 16 && c < 16 && d < 16 && h == [HexChar(a), HexChar(b), HexChar(c), HexChar(d)]
    ensures HexDigits(h) && HexNumber(h) == a * 0x1000 + b * 0x100 + c * 0x10 + d
  {
    HexDigitBack(a);
    HexDigitBack(b);
    HexDigitBack(c);
    HexDigitBack(d);
  }

  lemma HexBack(n: nat)
    requires n < 0x1_0000
    ensures HexDigits(Hex(n)) && HexNumber(Hex(n)) == n
  {
    HexOf(Hex(n), n / 16 / 16 / 16, n / 16 / 16 % 16, n / 16 % 16, n % 16);
  }

  function HighOf(cp: nat): (n: nat)
    requires 0x1_0000 <= cp < 0x11_0000
    ensures IsHigh(n)
  {
    0xD800 + (cp - 0x1_0000) / 0x400
  }

  function LowOf(cp: nat): (n: nat)
    requires 0x1_0000 <= cp < 0x11_0000
    ensures IsLow(n)
  {
    0xDC00 + (cp - 0x1_0000) % 0x400
  }

  lemma PointBack(cp: nat)
    requires 0x1_0000 <= cp < 0x11_0000
    ensures Point(HighOf(cp), LowOf(cp)) == cp
  {
  }

  /** A code point in `\u` units: one, or two surrogates beyond 0xFFFF. */
  function Units(cp: nat): Piece
    requires cp < 0x11_0000
  {
    if cp < 0x1_0000 then Unit(Hex(cp)) else Pair(Hex(HighOf(cp)), Hex(LowOf(cp)))
  }

  lemma UnitMeans(h: string, cp: nat)
    requires HexDigits(h) && HexNumber(h) == cp && !IsHigh(cp)
    ensures ValidPiece(Unit(h)) && PieceMeaning(Unit(h)) == Utf8(cp)
  {
  }

  lemma PairMeans(h: string, l: string, cp: nat)
    requires HexDigits(h) && HexDigits(l) && IsHigh(HexNumber(h)) && IsLow(HexNumber(l))
    requires Point(HexNumber(h), HexNumber(l)) == cp
    ensures ValidPiece(Pair(h, l)) && PieceMeaning(Pair(h, l)) == Utf8(cp)
  {
  }

  lemma UnitsMean(cp: nat)
    requires cp < 0x11_0000 && !IsHigh(cp)
    ensures ValidPiece(Units(cp)) && PieceMeaning(Units(cp)) == Utf8(cp)
  {
    if cp < 0x1_0000 {
      HexBack(cp);
      UnitMeans(Hex(cp), cp);
    } else {
      HexBack(HighOf(cp));
      HexBack(LowOf(cp));
      PointBack(cp);
      PairMeans(Hex(HighOf(cp)), Hex(LowOf(cp)), cp);
    }
  }

  /** Every code point but a high surrogate can be written in `\u` units, and is read as its UTF-8 form. */
  lemma UnitsAreRead(cp: nat, rest: string, acc: string)
    requires cp < 0x11_0000 && !IsHigh(cp)
    ensures StringRest(PieceText(Units(cp)) + rest, acc) == StringRest(rest, acc + Utf8(cp))
  {
    UnitsMean(cp);
    PieceReads(Units(cp), rest, acc);
  }
}
