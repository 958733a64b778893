/** Which texts are numbers, and what they denote: every digit times the power of ten of its place. */
module JsonNumbers {
  import opened Common
  import opened RaftTypes
  import opened Json

  datatype Exponent = Exponent(mark: char, sign: string, digits: string)

  /** A number as section 6 of RFC 8259 takes it apart. */
  datatype Numeral = Numeral(negative: bool, whole: string, fraction: Option<string>, exponent: Option<Exponent>)

  predicate AllDigits(s: string) {
    forall i | 0 <= i < |s| :: IsDigit(s[i])
  }

  predicate ValidExponent(e: Exponent) {
    (e.mark == 'e' || e.mark == 'E') && (e.sign == "" || e.sign == "+" || e.sign == "-") && e.digits != [] && AllDigits(e.digits)
  }

  /** No leading zeros. A point may stand without digits after it, which the standard does not allow. */
  predicate ValidNumeral(n: Numeral) {
    && n.whole != [] && AllDigits(n.whole) && (n.whole[0] == '0' ==> |n.whole| == 1)
    && (n.fraction.Some? ==> AllDigits(n.fraction.value))
    && (n.exponent.Some? ==> ValidExponent(n.exponent.value))
  }

  function SignText(negative: bool): string {
    if negative then "-" else ""
  }

  function FractionText(f: Option<string>): string {
    if f.None? then "" else "." + f.value
  }

  function ExponentText(e: Option<Exponent>): string {
    if e.None? then "" else [e.value.mark] + e.value.sign + e.value.digits
  }

  function NumeralText(n: Numeral): string {
    SignText(n.negative) + (n.whole + (FractionText(n.fraction) + ExponentText(n.exponent)))
  }

  // ---------------------------------------------------------------- meaning

  /** `r` with its point moved `k` places: times ten to the `k`. */
  function Moved(r: real, k: int): real
    decreases if k < 0 then -k else k
  {
    if k == 0 then r else if k > 0 then 10.0 * Moved(r, k - 1) else Moved(r, k + 1) / 10.0
  }

  /** The digits of `s`, each at its place, the first one at place `top`. */
  function PlaceSum(s: string, top: int): real {
    if s == [] then 0.0 else Moved(DigitValue(s[0]) as real, top) + PlaceSum(s[1..], top - 1)
  }

  function Decimals(n: Numeral): string {
    if n.fraction.None? then "" else n.fraction.value
  }

  function Power(e: Option<Exponent>): int {
    if e.None? then 0
    else
      var k := PlaceSum(e.value.digits, |e.value.digits| - 1).Floor;
      if e.value.sign == "-" then -k else k
  }

  /** The number a numeral denotes. */
  function Denoted(n: Numeral): real {
    var r := Moved(PlaceSum(n.whole + Decimals(n), |n.whole| - 1), Power(n.exponent));
    if n.negative then -r else r
  }

  // ---------------------------------------------------------------- moving the point

  lemma MovedStep(r: real, k: int)
    ensures Moved(r, k + 1) == 10.0 * Moved(r, k)
  {
  }

  lemma TimesPow10(r: real, k: nat)
    requires k > 0
    ensures r * Pow10(k) == 10.0 * (r * Pow10(k - 1)) && r / Pow10(k) == r / Pow10(k - 1) / 10.0
  {
  }

  lemma {:induction false} MovedIsTimes(r: real, k: nat)
    ensures Moved(r, k) == r * Pow10(k) && Moved(r, 0 - k) == r / Pow10(k)
  {
    if k > 0 {
      MovedIsTimes(r, k - 1);
      TimesPow10(r, k);
    }
  }

  lemma ScaledIsMoved(r: real, e: int)
    ensures Scaled(r, e) == Moved(r, e)
  {
    MovedIsTimes(r, if e >= 0 then e else -e);
  }

  lemma {:induction false} MovedAdds(a: real, b: real, k: int)
    ensures Moved(a + b, k) == Moved(a, k) + Moved(b, k)
    decreases if k < 0 then -k else k
  {
    if k != 0 {
      MovedAdds(a, b, if k > 0 then k - 1 else k + 1);
    }
  }

  lemma {:induction false} MovedTwice(r: real, a: int, b: int)
    ensures Moved(Moved(r, a), b) == Moved(r, a + b)
    decreases if b < 0 then -b else b
  {
    if b > 0 {
      MovedTwice(r, a, b - 1);
      MovedStep(r, a + b - 1);
    } else if b < 0 {
      MovedTwice(r, a, b + 1);
      MovedStep(r, a + b);
    }
  }

  lemma {:induction false} NothingMoved(k: int)
    ensures Moved(0.0, k) == 0.0
    decreases if k < 0 then -k else k
  {
    if k != 0 {
      NothingMoved(if k > 0 then k - 1 else k + 1);
    }
  }

  // ---------------------------------------------------------------- digits

  lemma {:induction false} PlaceSumAppends(s: string, c: char, top: int)
    ensures PlaceSum(s + [c], top) == PlaceSum(s, top) + Moved(DigitValue(c) as real, top - |s|)
  {
    if s == [] {
      assert [c][1..] == [] && s + [c] == [c];
    } else {
      PlaceSumAppends(s[1..], c, top - 1);
      assert (s + [c])[1..] == s[1..] + [c];
    }
  }

  /** One digit more: ten times the number before, and the digit. */
  lemma OneDigit(m: nat, d: nat, k: int)
    ensures Moved((m * 10 + d) as real, k) == Moved(m as real, k + 1) + Moved(d as real, k)
  {
    assert (m * 10 + d) as real == Moved(m as real, 1) + d as real;
    MovedAdds(Moved(m as real, 1), d as real, k);
    MovedTwice(m as real, 1, k);
  }

  /** Reading the digits as one integer and moving the point is summing them by place. */
  lemma {:induction false} PlaceSumIs(s: string, top: int)
    ensures PlaceSum(s, top) == Moved(NatOf(s) as real, top + 1 - |s|)
  {
    if s == [] {
      NothingMoved(top + 1);
    } else {
      var n := |s| - 1;
      PlaceSumIs(s[..n], top);
      assert s == s[..n] + [s[n]];
      PlaceSumAppends(s[..n], s[n], top);
      OneDigit(NatOf(s[..n]), DigitValue(s[n]), top - n);
    }
  }

  lemma ExponentShape(x: Exponent, t: string)
    requires ValidExponent(x) && t == ExponentText(Some(x))
    ensures |t| >= 2
    ensures if x.sign == "" then t[1] != '+' && t[1] != '-' && t[1..] == x.digits
            else t[1] == x.sign[0] && t[2..] == x.digits
  {
    assert IsDigit(x.digits[0]);
    if x.sign == "" {
      assert t == [x.mark] + x.digits;
    } else {
      assert t == [x.mark, x.sign[0]] + x.digits;
    }
  }

  lemma ExponentIs(e: Option<Exponent>)
    requires e.Some? ==> ValidExponent(e.value)
    ensures ExponentValue(ExponentText(e)) == Power(e)
  {
    if e.Some? {
      ExponentShape(e.value, ExponentText(e));
      PlaceSumIs(e.value.digits, |e.value.digits| - 1);
    }
  }

  lemma Unsigned(whole: string, ds: string, k: int)
    ensures Scaled(NatOf(whole + ds) as real, k - |ds|) == Moved(PlaceSum(whole + ds, |whole| - 1), k)
  {
    var m := NatOf(whole + ds) as real;
    ScaledIsMoved(m, k - |ds|);
    PlaceSumIs(whole + ds, |whole| - 1);
    MovedTwice(m, -|ds|, k);
  }

  lemma DecimalsOf(n: Numeral)
    ensures (if FractionText(n.fraction) == [] then [] else FractionText(n.fraction)[1..]) == Decimals(n)
  {
  }

  /** The parser's arithmetic is the sum by place, moved by the exponent, with its sign. */
  lemma AmountIsDenoted(n: Numeral)
    requires ValidNumeral(n)
    ensures Amount(n.negative, n.whole, FractionText(n.fraction), ExponentText(n.exponent)) == Denoted(n)
  {
    DecimalsOf(n);
    ExponentIs(n.exponent);
    Unsigned(n.whole, Decimals(n), Power(n.exponent));
  }

  // ---------------------------------------------------------------- every such text is read

  /** Nothing that could go on with a number. */
  predicate Closes(rest: string) {
    rest == [] || !(IsDigit(rest[0]) || rest[0] == '.' || rest[0] == 'e' || rest[0] == 'E')
  }

  predicate NoDigit(rest: string) {
    rest == [] || !IsDigit(rest[0])
  }

  lemma {:induction false} DigitsEnd(d: string, rest: string)
    requires AllDigits(d) && NoDigit(rest)
    ensures DigitsOf(d + rest) == |d|
  {
    if d == [] {
      assert d + rest == rest;
    } else {
      assert (d + rest)[1..] == d[1..] + rest;
      DigitsEnd(d[1..], rest);
    }
  }

  lemma Halves(a: string, b: string)
    ensures (a + b)[..|a|] == a && (a + b)[|a|..] == b
  {
  }

  lemma Front(t: string, rest: string)
    requires |t| >= 2
    ensures var s := t + rest; s[0] == t[0] && s[1] == t[1] && s[1..] == t[1..] + rest && s[2..] == t[2..] + rest
  {
  }

  lemma SignedReads(x: Exponent, t: string, rest: string)
    requires ValidExponent(x) && t == ExponentText(Some(x)) && NoDigit(rest)
    ensures ExponentLength(t + rest) == Some(|t|)
  {
    ExponentShape(x, t);
    Front(t, rest);
    DigitsEnd(x.digits, rest);
  }

  lemma ExponentReads(e: Option<Exponent>, rest: string)
    requires (e.Some? ==> ValidExponent(e.value)) && Closes(rest)
    ensures ExponentLength(ExponentText(e) + rest) == Some(|ExponentText(e)|)
    ensures NoDigit(ExponentText(e) + rest) && (ExponentText(e) + rest == [] || (ExponentText(e) + rest)[0] != '.')
  {
    if e.None? {
      assert ExponentText(e) + rest == rest;
    } else {
      SignedReads(e.value, ExponentText(e), rest);
    }
  }

  lemma FractionReads(f: Option<string>, rest: string)
    requires (f.Some? ==> AllDigits(f.value)) && NoDigit(rest) && (rest == [] || rest[0] != '.')
    ensures FractionLength(FractionText(f) + rest) == |FractionText(f)|
    ensures NoDigit(FractionText(f) + rest)
  {
    if f.None? {
      assert FractionText(f) + rest == rest;
    } else {
      DigitsEnd(f.value, rest);
      assert (FractionText(f) + rest)[1..] == f.value + rest;
    }
  }

  lemma WholeReads(w: string, rest: string)
    requires w != [] && AllDigits(w) && (w[0] == '0' ==> |w| == 1) && NoDigit(rest)
    ensures IntegerLength(w + rest) == |w|
  {
    DigitsEnd(w, rest);
    assert (w + rest)[0] == w[0];
  }

  lemma NumberOf(s: string, negative: bool, a: string, w: string, b: string, f: string, c: string, e: string, rest: string)
    requires s != [] && negative == (s[0] == '-') && a == (if negative then s[1..] else s)
    requires a == w + b && w != [] && IntegerLength(a) == |w|
    requires b == f + c && FractionLength(b) == |f|
    requires c == e + rest && ExponentLength(c) == Some(|e|)
    ensures Number(s) == Some((Amount(negative, w, f, e), rest))
  {
    Halves(w, b);
    Halves(f, c);
    Halves(e, rest);
  }

  lemma NumeralParts(n: Numeral, rest: string, c: string, b: string, a: string)
    requires c == ExponentText(n.exponent) + rest && b == FractionText(n.fraction) + c && a == n.whole + b
    ensures NumeralText(n) + rest == SignText(n.negative) + a
  {
    var f, e := FractionText(n.fraction), ExponentText(n.exponent);
    Assoc(SignText(n.negative), n.whole + (f + e), rest);
    Assoc(n.whole, f + e, rest);
    Assoc(f, e, rest);
  }

  lemma SignReads(negative: bool, a: string)
    requires a != [] && IsDigit(a[0])
    ensures var s := SignText(negative) + a; s != [] && negative == (s[0] == '-') && (negative ==> s[1..] == a) && (!negative ==> s == a)
  {
  }

  /** Every numeral, before anything that cannot go on with it, is read whole and as what it denotes. */
  lemma NumeralIsRead(n: Numeral, rest: string)
    requires ValidNumeral(n) && Closes(rest)
    ensures Number(NumeralText(n) + rest) == Some((Denoted(n), rest))
  {
    var f, e := FractionText(n.fraction), ExponentText(n.exponent);
    var c := e + rest;
    var b := f + c;
    var a := n.whole + b;
    ExponentReads(n.exponent, rest);
    FractionReads(n.fraction, c);
    WholeReads(n.whole, b);
    NumeralParts(n, rest, c, b, a);
    SignReads(n.negative, a);
    NumberOf(SignText(n.negative) + a, n.negative, a, n.whole, b, f, c, e, rest);
    AmountIsDenoted(n);
  }

  // ---------------------------------------------------------------- and nothing else

  lemma {:induction false} DigitsAre(s: string)
    ensures AllDigits(s[..DigitsOf(s)])
  {
    if s != [] && IsDigit(s[0]) {
      DigitsAre(s[1..]);
      var k := DigitsOf(s[1..]);
      assert s[..k + 1] == [s[0]] + s[1..][..k];
    }
  }

  lemma WholeOf(a: string)
    requires IntegerLength(a) > 0
    ensures var w := a[..IntegerLength(a)]; w != [] && AllDigits(w) && (w[0] == '0' ==> |w| == 1)
  {
    DigitsAre(a);
  }

  lemma FractionOf(b: string) returns (f: Option<string>)
    ensures (f.Some? ==> AllDigits(f.value)) && FractionText(f) == b[..FractionLength(b)]
  {
    if FractionLength(b) == 0 {
      f := None;
    } else {
      var d := b[1..];
      DigitsAre(d);
      f := Some(d[..DigitsOf(d)]);
    }
  }

  lemma ExponentOf(c: string) returns (e: Option<Exponent>)
    requires ExponentLength(c).Some?
    ensures (e.Some? ==> ValidExponent(e.value)) && ExponentText(e) == c[..ExponentLength(c).value]
  {
    if ExponentLength(c).value == 0 {
      e := None;
    } else {
      var sign := if |c| > 1 && (c[1] == '+' || c[1] == '-') then 1 else 0;
      var d := c[1 + sign..];
      DigitsAre(d);
      e := Some(Exponent(c[0], c[1..1 + sign], d[..DigitsOf(d)]));
    }
  }

  lemma Split(s: string, i: nat)
    requires i <= |s|
    ensures s == s[..i] + s[i..]
  {
  }

  lemma SignOf(s: string, negative: bool)
    requires s != [] && negative == (s[0] == '-')
    ensures s == SignText(negative) + (if negative then s[1..] else s)
  {
  }

  /** Whatever is read as a number is a numeral and what it denotes. */
  lemma ReadIsNumeral(s: string) returns (n: Numeral)
    requires Number(s).Some?
    ensures ValidNumeral(n) && s == NumeralText(n) + Number(s).value.1 && Number(s).value.0 == Denoted(n)
  {
    var negative := s[0] == '-';
    var a := if negative then s[1..] else s;
    var i := IntegerLength(a);
    var b := a[i..];
    var k := FractionLength(b);
    var c := b[k..];
    var m := ExponentLength(c).value;
    WholeOf(a);
    var f := FractionOf(b);
    var e := ExponentOf(c);
    n := Numeral(negative, a[..i], f, e);
    SignOf(s, negative);
    Split(a, i);
    Split(b, k);
    Split(c, m);
    NumeralParts(n, c[m..], c, b, a);
    AmountIsDenoted(n);
  }
}
