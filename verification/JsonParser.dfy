/** The parser as an object: a position that moves over the text. */
module JsonParsers {
  import opened RaftTypes
  import opened Json

  class Parser {
    const text: string
    var pos: nat

    predicate Valid()
      reads this
    {
      pos <= |text|
    }

    function Rest(): string
      reads this
      requires Valid()
    {
      text[pos..]
    }

    constructor (t: string)
      ensures Valid() && text == t && pos == 0
    {
      text, pos := t, 0;
    }

    method SkipSpace()
      requires Valid()
      modifies this
      ensures Valid() && Rest() == SkipWs(old(Rest())) && old(pos) <= pos
    {
      while pos < |text| && IsWs(text[pos])
        invariant Valid() && old(pos) <= pos && SkipWs(text[pos..]) == SkipWs(old(Rest()))
      {
        assert text[pos..][1..] == text[pos + 1..];
        pos := pos + 1;
      }
    }

    /** Follows a string from just after its opening quote. */
    method StringBody() returns (r: Option<string>)
      requires Valid()
      modifies this
      ensures Valid() && old(pos) <= pos
      ensures match StringRest(old(Rest()), [])
              case None => r == None
              case Some((x, t)) => r == Some(x) && Rest() == t
    {
      var out := "";
      while pos < |text|
        invariant Valid() && old(pos) <= pos && StringRest(text[pos..], out) == StringRest(old(Rest()), [])
        decreases |text| - pos
      {
        var c := text[pos];
        assert text[pos..][1..] == text[pos + 1..];
        pos := pos + 1;
        if c == '"' {
          return Some(out);
        }
        if c == '\\' {
          var e := TakeEscape();
          if e.None? {
            return None;
          }
          out := out + e.value;
        } else {
          out := out + [c];
        }
      }
      r := None;
    }

    method TakeEscape() returns (r: Option<string>)
      requires Valid()
      modifies this
      ensures Valid() && old(pos) <= pos
      ensures match Escape(old(Rest()))
              case None => r == None
              case Some((x, t)) => r == Some(x) && Rest() == t
    {
      if pos == |text| {
        return None;
      }
      var c := text[pos];
      assert text[pos..][1..] == text[pos + 1..];
      pos := pos + 1;
      match c {
        case '"' => return Some("\"");
        case '\\' => return Some("\\");
        case '/' => return Some("/");
        case 'b' => return Some([8 as char]);
        case 'f' => return Some([12 as char]);
        case 'n' => return Some("\n");
        case 'r' => return Some("\r");
        case 't' => return Some("\t");
        case 'u' => r := TakeUnicode();
        case _ => return None;
      }
    }

    method TakeHex4() returns (r: Option<nat>)
      requires Valid()
      modifies this
      ensures Valid() && old(pos) <= pos && (r.Some? ==> r.value < 0x1_0000)
      ensures match Hex4(old(Rest()))
              case None => r == None
              case Some((n, t)) => r == Some(n) && Rest() == t
    {
      if pos + 4 > |text| {
        return None;
      }
      ghost var s := Rest();
      assert s[0] == text[pos] && s[1] == text[pos + 1] && s[2] == text[pos + 2] && s[3] == text[pos + 3];
      assert s[4..] == text[pos + 4..];
      var value: nat := 0;
      for i := 0 to 4
        invariant pos == old(pos) + i && s == old(Rest())
        invariant forall k | 0 <= k < i :: HexValue(s[k]).Some? && HexValue(s[k]).value < 16
        invariant value == Gathered(s, i)
      {
        var d := HexValue(text[pos]);
        pos := pos + 1;
        if d.None? {
          return None;
        }
        value := value * 16 + d.value;
      }
      GatheredFour(s);
      r := Some(value);
    }

    method TakeUnicode() returns (r: Option<string>)
      requires Valid()
      modifies this
      ensures Valid() && old(pos) <= pos
      ensures match Unicode(old(Rest()))
              case None => r == None
              case Some((x, t)) => r == Some(x) && Rest() == t
    {
      var a := TakeHex4();
      if a.None? {
        return None;
      }
      var code := a.value;
      if 0xD800 <= code <= 0xDBFF {
        if !("\\u" <= text[pos..]) {
          return None;
        }
        assert text[pos..][2..] == text[pos + 2..];
        pos := pos + 2;
        var b := TakeHex4();
        if b.None? || b.value < 0xDC00 || b.value > 0xDFFF {
          return None;
        }
        code := 0x1_0000 + (code - 0xD800) * 0x400 + (b.value - 0xDC00);
      }
      r := Some(Utf8(code));
    }

    // -------------------------------------------------------------- numbers

    method SkipDigits()
      requires Valid()
      modifies this
      ensures Valid() && pos == old(pos) + DigitsOf(old(Rest()))
    {
      while pos < |text| && IsDigit(text[pos])
        invariant Valid() && old(pos) <= pos && pos - old(pos) + DigitsOf(text[pos..]) == DigitsOf(old(Rest()))
      {
        assert text[pos..][1..] == text[pos + 1..];
        pos := pos + 1;
      }
    }

    method ConsumeInteger() returns (ok: bool)
      requires Valid()
      modifies this
      ensures Valid() && pos == old(pos) + IntegerLength(old(Rest())) && (ok <==> IntegerLength(old(Rest())) > 0)
    {
      if pos == |text| || !IsDigit(text[pos]) {
        return false;
      }
      if text[pos] == '0' {
        pos := pos + 1;
        return true;
      }
      SkipDigits();
      ok := true;
    }

    method ConsumeFraction()
      requires Valid()
      modifies this
      ensures Valid() && pos == old(pos) + FractionLength(old(Rest()))
    {
      if pos == |text| || text[pos] != '.' {
        return;
      }
      assert text[pos..][1..] == text[pos + 1..];
      pos := pos + 1;
      SkipDigits();
    }

    method ConsumeExponent() returns (ok: bool)
      requires Valid()
      modifies this
      ensures Valid() && old(pos) <= pos && (ok <==> ExponentLength(old(Rest())).Some?)
      ensures ok ==> pos == old(pos) + ExponentLength(old(Rest())).value
    {
      if pos == |text| || (text[pos] != 'e' && text[pos] != 'E') {
        return true;
      }
      ghost var s := Rest();
      assert s[1..] == text[pos + 1..];
      pos := pos + 1;
      if pos < |text| && (text[pos] == '+' || text[pos] == '-') {
        assert s[1] == text[pos] && s[2..] == text[pos + 1..];
        pos := pos + 1;
      }
      if pos == |text| || !IsDigit(text[pos]) {
        return false;
      }
      SkipDigits();
      ok := true;
    }

    method ParseNumber() returns (r: Option<real>)
      requires Valid()
      modifies this
      ensures Valid() && old(pos) <= pos
      ensures match Number(old(Rest()))
              case None => r == None
              case Some((x, t)) => r == Some(x) && Rest() == t
    {
      ghost var start := pos;
      var negative := pos < |text| && text[pos] == '-';
      if negative {
        pos := pos + 1;
      }
      var whole := pos;
      NumberStarts(text, start, whole, negative);
      var ok := ConsumeInteger();
      if !ok {
        return None;
      }
      var fraction := pos;
      ConsumeFraction();
      var exponent := pos;
      ok := ConsumeExponent();
      NumberEnds(text, start, whole, negative, fraction, exponent);
      if !ok {
        return None;
      }
      Slices(text, exponent, pos);
      r := Some(Amount(negative, text[whole..fraction], text[fraction..exponent], text[exponent..pos]));
    }

    // -------------------------------------------------------------- values

    method ParseValue(depth: nat) returns (r: Option<Json>)
      requires Valid()
      modifies this
      ensures Valid() && old(pos) <= pos && Gives(r, Rest(), Value(old(Rest()), depth))
      decreases |text| - pos, 1
    {
      if depth > MAX_DEPTH {
        return None;
      }
      if pos == |text| {
        return None;
      }
      match text[pos] {
        case '{' => r := ParseObject(depth);
        case '[' => r := ParseArray(depth);
        case '"' => r := ParseString();
        case 't' => r := ParseWord("true", JBool(true));
        case 'f' => r := ParseWord("false", JBool(false));
        case 'n' => r := ParseWord("null", JNull);
        case _ =>
          var n := ParseNumber();
          r := if n.Some? then Some(JNum(n.value)) else None;
      }
    }

    method ParseString() returns (r: Option<Json>)
      requires Valid() && pos < |text|
      modifies this
      ensures Valid() && old(pos) <= pos
      ensures match StringRest(old(Rest())[1..], [])
              case None => r == None
              case Some((x, t)) => r == Some(JStr(x)) && Rest() == t
    {
      assert text[pos..][1..] == text[pos + 1..];
      pos := pos + 1;
      var x := StringBody();
      r := if x.Some? then Some(JStr(x.value)) else None;
    }

    method ParseWord(word: string, v: Json) returns (r: Option<Json>)
      requires Valid()
      modifies this
      ensures Valid() && old(pos) <= pos
      ensures if word <= old(Rest()) then r == Some(v) && Rest() == old(Rest())[|word|..] else r == None
    {
      if !(word <= text[pos..]) {
        return None;
      }
      assert text[pos..][|word|..] == text[pos + |word|..];
      pos := pos + |word|;
      r := Some(v);
    }

    method ParseArray(depth: nat) returns (r: Option<Json>)
      requires Valid() && pos < |text| && text[pos] == '[' && depth <= MAX_DEPTH
      modifies this
      ensures Valid() && old(pos) <= pos && Gives(r, Rest(), Value(old(Rest()), depth))
      decreases |text| - pos, 0
    {
      assert text[pos..][1..] == text[pos + 1..];
      pos := pos + 1;
      SkipSpace();
      if pos < |text| && text[pos] == ']' {
        assert text[pos..][1..] == text[pos + 1..];
        pos := pos + 1;
        return Some(JArr([]));
      }
      r := ParseItems(depth);
    }

    /** Takes a comma or the closing bracket; anything else stays, and a blank is reported. */
    method Separator(close: char) returns (c: char)
      requires Valid() && close != ' '
      modifies this
      ensures Valid() && old(pos) <= pos
      ensures var s := old(Rest());
              if s != [] && (s[0] == ',' || s[0] == close) then c == s[0] && Rest() == s[1..] else c == ' '
    {
      c := ' ';
      if pos < |text| && (text[pos] == ',' || text[pos] == close) {
        assert text[pos..][1..] == text[pos + 1..];
        c := text[pos];
        pos := pos + 1;
      }
    }

    method ParseItems(depth: nat) returns (r: Option<Json>)
      requires Valid()
      modifies this
      ensures Valid() && old(pos) <= pos && Gives(r, Rest(), Items(old(Rest()), depth, []))
      decreases |text| - pos, 2
    {
      var items: seq<Json> := [];
      ghost var want := Items(Rest(), depth, []);
      while true
        invariant Valid() && old(pos) <= pos && Items(Rest(), depth, items) == want
        decreases |text| - pos
      {
        ghost var s := Rest();
        SkipSpace();
        var v := ParseValue(depth + 1);
        ItemsStart(s, depth, items);
        if v.None? {
          return None;
        }
        SkipSpace();
        ItemsGoOn(s, depth, items, v.value, Rest());
        items := items + [v.value];
        var c := Separator(']');
        if c == ']' {
          return Some(JArr(items));
        }
        if c != ',' {
          return None;
        }
      }
    }

    method ParseKey() returns (r: Option<string>)
      requires Valid()
      modifies this
      ensures Valid() && old(pos) <= pos
      ensures match Key(old(Rest()))
              case None => r == None
              case Some((k, t)) => r == Some(k) && Rest() == t && old(pos) < pos
    {
      SkipSpace();
      if pos == |text| || text[pos] != '"' {
        return None;
      }
      assert text[pos..][1..] == text[pos + 1..];
      pos := pos + 1;
      var k := StringBody();
      if k.None? {
        return None;
      }
      SkipSpace();
      if pos == |text| || text[pos] != ':' {
        return None;
      }
      assert text[pos..][1..] == text[pos + 1..];
      pos := pos + 1;
      r := k;
    }

    method ParseObject(depth: nat) returns (r: Option<Json>)
      requires Valid() && pos < |text| && text[pos] == '{' && depth <= MAX_DEPTH
      modifies this
      ensures Valid() && old(pos) <= pos && Gives(r, Rest(), Value(old(Rest()), depth))
      decreases |text| - pos, 0
    {
      assert text[pos..][1..] == text[pos + 1..];
      pos := pos + 1;
      SkipSpace();
      if pos < |text| && text[pos] == '}' {
        assert text[pos..][1..] == text[pos + 1..];
        pos := pos + 1;
        return Some(JObj([]));
      }
      r := ParseMembers(depth);
    }

    method ParseMember(depth: nat) returns (r: Option<(string, Json)>)
      requires Valid()
      modifies this
      ensures Valid() && old(pos) <= pos
      ensures match Pair(old(Rest()), depth)
              case None => r == None
              case Some((m, t)) => r == Some(m) && Rest() == t
      decreases |text| - pos, 2
    {
      var k := ParseKey();
      if k.None? {
        return None;
      }
      SkipSpace();
      var v := ParseValue(depth + 1);
      r := if v.Some? then Some((k.value, v.value)) else None;
    }

    method ParseMemberAndSpace(depth: nat) returns (r: Option<(string, Json)>)
      requires Valid()
      modifies this
      ensures Valid() && old(pos) <= pos
      ensures match Pair(old(Rest()), depth)
              case None => r == None
              case Some((m, t)) => r == Some(m) && Rest() == SkipWs(t) && |t| < |old(Rest())|
      decreases |text| - pos, 3
    {
      r := ParseMember(depth);
      SkipSpace();
    }

    method ParseMembers(depth: nat) returns (r: Option<Json>)
      requires Valid()
      modifies this
      ensures Valid() && old(pos) <= pos && Gives(r, Rest(), Members(old(Rest()), depth, []))
      decreases |text| - pos, 4
    {
      var members: seq<(string, Json)> := [];
      ghost var want := Members(Rest(), depth, []);
      while true
        invariant Valid() && old(pos) <= pos && Members(Rest(), depth, members) == want
        decreases |text| - pos
      {
        ghost var s := Rest();
        var m := ParseMemberAndSpace(depth);
        MembersStart(s, depth, members);
        if m.None? {
          return None;
        }
        MembersGoOn(s, depth, members, m.value, Rest());
        members := members + [m.value];
        var c := Separator('}');
        if c == '}' {
          return Some(JObj(members));
        }
        if c != ',' {
          return None;
        }
      }
    }

    /** The whole text must be one value. */
    method ParseDocument() returns (r: Option<Json>)
      requires pos == 0
      modifies this
      ensures r == Parsed(text)
    {
      assert text[0..] == text;
      SkipSpace();
      r := ParseValue(0);
      if r.None? {
        return;
      }
      SkipSpace();
      if pos != |text| {
        r := None;
      }
    }
  }

  /** `r` and what is left are what reading `want` says. */
  predicate Gives(r: Option<Json>, rest: string, want: Option<(Json, string)>) {
    match want
    case None => r == None
    case Some((v, t)) => r == Some(v) && rest == t
  }

  lemma ItemsStart(s: string, depth: nat, acc: seq<Json>)
    ensures Value(SkipWs(s), depth + 1) == None ==> Items(s, depth, acc) == None
  {
  }

  /** After an element: the next one, the end, or an error. */
  lemma ItemsGoOn(s: string, depth: nat, acc: seq<Json>, v: Json, u: string)
    requires Value(SkipWs(s), depth + 1).Some?
    requires v == Value(SkipWs(s), depth + 1).value.0 && u == SkipWs(Value(SkipWs(s), depth + 1).value.1)
    ensures |u| < |s|
    ensures Items(s, depth, acc) ==
            if u == [] then None
            else if u[0] == ',' then Items(u[1..], depth, acc + [v])
            else if u[0] == ']' then Some((JArr(acc + [v]), u[1..]))
            else None
  {
  }

  /** A key, its colon and its value. */
  function Pair(s: string, depth: nat): Option<((string, Json), string)> {
    match Key(s)
    case None => None
    case Some((k, t)) =>
      match Value(SkipWs(t), depth + 1)
      case None => None
      case Some((v, u)) => Some(((k, v), u))
  }

  lemma MembersStart(s: string, depth: nat, acc: seq<(string, Json)>)
    ensures Pair(s, depth) == None ==> Members(s, depth, acc) == None
  {
  }

  lemma MembersGoOn(s: string, depth: nat, acc: seq<(string, Json)>, m: (string, Json), u: string)
    requires Pair(s, depth).Some? && m == Pair(s, depth).value.0 && u == SkipWs(Pair(s, depth).value.1)
    ensures |u| < |s|
    ensures Members(s, depth, acc) ==
            if u == [] then None
            else if u[0] == ',' then Members(u[1..], depth, acc + [m])
            else if u[0] == '}' then Some((JObj(acc + [m]), u[1..]))
            else None
  {
  }

  /** The sign is off; without digits there is no number. */
  lemma NumberStarts(text: string, start: nat, whole: nat, negative: bool)
    requires start <= whole <= |text| && negative == (start < |text| && text[start] == '-')
    requires whole == if negative then start + 1 else start
    ensures text[whole..] == (if negative then text[start..][1..] else text[start..])
    ensures IntegerLength(text[whole..]) == 0 ==> Number(text[start..]) == None
  {
  }

  /** The integer part ends at `fraction`, the fraction at `exponent`. */
  lemma NumberEnds(text: string, start: nat, whole: nat, negative: bool, fraction: nat, exponent: nat)
    requires start <= whole <= fraction <= exponent <= |text|
    requires negative == (start < |text| && text[start] == '-') && whole == if negative then start + 1 else start
    requires fraction == whole + IntegerLength(text[whole..]) && IntegerLength(text[whole..]) > 0
    requires exponent == fraction + FractionLength(text[fraction..])
    ensures Number(text[start..]) ==
            match ExponentLength(text[exponent..])
            case None => None
            case Some(e) => Some((Amount(negative, text[whole..fraction], text[fraction..exponent], text[exponent..][..e]),
                                  text[exponent..][e..]))
  {
    NumberStarts(text, start, whole, negative);
    Slices(text, whole, fraction);
    Slices(text, fraction, exponent);
    NumberParts(text[start..], negative, text[whole..], fraction - whole, text[fraction..], exponent - fraction,
                text[exponent..], text[whole..fraction], text[fraction..exponent]);
  }

  lemma NumberParts(s: string, negative: bool, a: string, i: nat, b: string, f: nat, c: string, w: string, x: string)
    requires negative == (s != [] && s[0] == '-') && a == (if negative then s[1..] else s)
    requires i == IntegerLength(a) && i > 0 && w == a[..i] && b == a[i..]
    requires f == FractionLength(b) && x == b[..f] && c == b[f..]
    ensures Number(s) ==
            match ExponentLength(c)
            case None => None
            case Some(e) => Some((Amount(negative, w, x, c[..e]), c[e..]))
  {
  }

  /** The hexadecimal digits read so far. */
  function Gathered(s: string, n: nat): nat
    requires n <= |s| && forall k | 0 <= k < n :: HexValue(s[k]).Some?
  {
    if n == 0 then 0 else Gathered(s, n - 1) * 16 + HexValue(s[n - 1]).value
  }

  lemma GatheredFour(s: string)
    requires |s| >= 4 && forall k | 0 <= k < 4 :: HexValue(s[k]).Some?
    ensures Hex4(s) == Some((Gathered(s, 4), s[4..]))
  {
    assert Gathered(s, 1) == HexValue(s[0]).value;
    assert Gathered(s, 2) == Gathered(s, 1) * 16 + HexValue(s[1]).value;
    assert Gathered(s, 3) == Gathered(s, 2) * 16 + HexValue(s[2]).value;
    assert HexValue(s[0]).Some? && HexValue(s[1]).Some? && HexValue(s[2]).Some? && HexValue(s[3]).Some?;
  }

  lemma Slices(text: string, a: nat, b: nat)
    requires a <= b <= |text|
    ensures text[a..][..b - a] == text[a..b] && text[a..][b - a..] == text[b..]
  {
  }
}
