/** Parsing what the writer wrote gives the tree back. */
module JsonRoundTrip {
  import opened Common
  import opened RaftTypes
  import opened Json

  // ---------------------------------------------------------------- strings

  lemma HexBack(d: nat)
    requires d < 16
    ensures HexValue(HexChar(d)) == Some(d)
  {
  }

  /** A control character comes back from its `\u00xx`. */
  lemma ControlBack(c: char, rest: string)
    requires c as int < 0x20
    ensures Unicode("00" + [HexChar(c as int / 16), HexChar(c as int % 16)] + rest) == Some(([c], rest))
  {
    var n := c as int;
    var s := "00" + [HexChar(n / 16), HexChar(n % 16)] + rest;
    HexBack(n / 16);
    HexBack(n % 16);
    assert s[0] == '0' && s[1] == '0' && s[2] == HexChar(n / 16) && s[3] == HexChar(n % 16) && s[4..] == rest;
    assert Hex4(s) == Some((n, rest));
  }

  lemma CharBack(c: char, rest: string, acc: string)
    ensures StringRest(Escaped(c) + rest, acc) == StringRest(rest, acc + [c])
  {
    var e := Escaped(c);
    var s := e + rest;
    if e == [c] {
      assert s[1..] == rest;
    } else if |e| == 2 {
      assert s[1..] == [e[1]] + rest && s[1..][1..] == rest;
    } else {
      var t := "00" + [HexChar(c as int / 16), HexChar(c as int % 16)];
      assert e == "\\u" + t;
      assert s[1..] == "u" + (t + rest) && s[1..][1..] == t + rest;
      ControlBack(c, rest);
    }
  }

  lemma EscapedFront(x: string, t: string)
    requires x != []
    ensures EscapedAll(x) + t == Escaped(x[0]) + (EscapedAll(x[1..]) + t)
  {
    Assoc(Escaped(x[0]), EscapedAll(x[1..]), t);
  }

  lemma Grows(acc: string, x: string)
    requires x != []
    ensures acc + [x[0]] + x[1..] == acc + x
  {
  }

  lemma NothingEscaped(t: string, acc: string)
    ensures EscapedAll([]) + t == t && acc + [] == acc
  {
  }

  lemma OneChar(x: string, t: string, acc: string)
    requires x != []
    ensures StringRest(EscapedAll(x) + t, acc) == StringRest(EscapedAll(x[1..]) + t, acc + [x[0]])
  {
    EscapedFront(x, t);
    CharBack(x[0], EscapedAll(x[1..]) + t, acc);
  }

  /** Reading an escaped text is reading the text. */
  lemma {:induction false} StringBack(x: string, t: string, acc: string)
    ensures StringRest(EscapedAll(x) + t, acc) == StringRest(t, acc + x)
    decreases |x|
  {
    if x == [] {
      NothingEscaped(t, acc);
    } else {
      OneChar(x, t, acc);
      StringBack(x[1..], t, acc + [x[0]]);
      Grows(acc, x);
    }
  }

  lemma QuotedBack(x: string, rest: string)
    ensures Quoted(x) + rest != [] && (Quoted(x) + rest)[0] == '"'
    ensures StringRest((Quoted(x) + rest)[1..], []) == Some((x, rest))
  {
    var t := "\"" + rest;
    assert Quoted(x) + rest == "\"" + (EscapedAll(x) + t);
    assert (Quoted(x) + rest)[1..] == EscapedAll(x) + t;
    StringBack(x, t, []);
    assert [] + x == x && t[1..] == rest;
  }

  // ---------------------------------------------------------------- integers

  /** What follows a value inside a document. */
  predicate Ends(rest: string) {
    rest == [] || rest[0] == ',' || rest[0] == ']' || rest[0] == '}'
  }

  /** `d` is how `n` is written. */
  ghost predicate Spells(d: string, n: nat) {
    && d != [] && (forall i | 0 <= i < |d| :: IsDigit(d[i]))
    && (d[0] == '0' ==> |d| == 1)
    && NatOf(d) == n
  }

  lemma {:induction false} DecimalSpells(n: nat)
    ensures Spells(Decimal(n), n)
    ensures n > 0 ==> Decimal(n)[0] != '0'
  {
    if n >= 10 {
      DecimalSpells(n / 10);
      var d := Decimal(n / 10);
      assert Decimal(n)[..|d|] == d;
    }
  }

  lemma {:induction false} DigitsEnd(s: string, rest: string)
    requires (forall i | 0 <= i < |s| :: IsDigit(s[i])) && Ends(rest)
    ensures DigitsOf(s + rest) == |s|
  {
    if s == [] {
      assert s + rest == rest;
    } else {
      assert (s + rest)[1..] == s[1..] + rest;
      DigitsEnd(s[1..], rest);
    }
  }

  lemma WholeBack(d: string, n: nat, rest: string)
    requires Spells(d, n) && Ends(rest)
    ensures IntegerLength(d + rest) == |d|
  {
    DigitsEnd(d, rest);
    assert (d + rest)[0] == d[0];
  }

  lemma NothingAfter(rest: string)
    requires Ends(rest)
    ensures FractionLength(rest) == 0 && ExponentLength(rest) == Some(0)
    ensures rest[..0] == [] && rest[0..] == rest
  {
  }

  lemma Halves(a: string, b: string)
    ensures (a + b)[..|a|] == a && (a + b)[|a|..] == b
  {
  }

  /** Digits only, after the sign. */
  lemma DigitsBack(s: string, negative: bool, d: string, n: nat, rest: string)
    requires Spells(d, n) && Ends(rest) && s != [] && negative == (s[0] == '-')
    requires (if negative then s[1..] else s) == d + rest
    ensures Number(s) == Some((Amount(negative, d, [], []), rest))
  {
    WholeBack(d, n, rest);
    Halves(d, rest);
    NothingAfter(rest);
  }

  lemma PlainAmount(d: string, n: nat)
    requires Spells(d, n)
    ensures Amount(false, d, [], []) == n as real && Amount(true, d, [], []) == -(n as real)
  {
    assert d + [] == d;
  }

  lemma SignedBack(s: string, negative: bool, d: string, n: nat, rest: string, x: real)
    requires Spells(d, n) && Ends(rest)
    requires s == if negative then "-" + (d + rest) else d + rest
    requires x == if negative then -(n as real) else n as real
    ensures Number(s) == Some((x, rest))
  {
    assert (d + rest)[0] == d[0] && ("-" + (d + rest))[1..] == d + rest;
    DigitsBack(s, negative, d, n, rest);
    PlainAmount(d, n);
  }

  lemma TextOf(n: int, rest: string)
    ensures IntText(n) + rest == if n < 0 then "-" + (Decimal(-n) + rest) else Decimal(n) + rest
  {
    if n < 0 {
      Assoc("-", Decimal(-n), rest);
    }
  }

  lemma Opposite(n: int, k: nat)
    requires k == -n
    ensures n as real == -(k as real)
  {
  }

  lemma NumberBack(n: int, rest: string)
    requires Ends(rest)
    ensures Number(IntText(n) + rest) == Some((n as real, rest))
  {
    var k: nat := if n < 0 then -n else n;
    DecimalSpells(k);
    TextOf(n, rest);
    if n < 0 {
      Opposite(n, k);
    }
    SignedBack(IntText(n) + rest, n < 0, Decimal(k), k, rest, n as real);
  }

  // ---------------------------------------------------------------- trees

  function Greater(a: nat, b: nat): nat {
    if a >= b then a else b
  }

  /** Levels of nesting below a value. */
  function Height(v: Json): nat
    decreases v, 0
  {
    match v
    case JArr(vs) => if vs == [] then 0 else 1 + ItemsHeight(vs)
    case JObj(ms) => if ms == [] then 0 else 1 + MembersHeight(ms)
    case _ => 0
  }

  function ItemsHeight(vs: seq<Json>): nat
    decreases vs, 1
  {
    if vs == [] then 0 else Greater(Height(vs[0]), ItemsHeight(vs[1..]))
  }

  function MembersHeight(ms: seq<(string, Json)>): nat
    decreases ms, 2
  {
    if ms == [] then 0 else Greater(MemberHeight(ms[0]), MembersHeight(ms[1..]))
  }

  function MemberHeight(m: (string, Json)): nat
    decreases m, 1
  {
    Height(m.1)
  }

  /** Every number is an integer that a double holds exactly. */
  predicate Exact(v: Json)
    decreases v, 0
  {
    match v
    case JNum(r) => r == r.Floor as real && -0x20_0000_0000_0000 <= r.Floor <= 0x20_0000_0000_0000
    case JArr(vs) => ItemsExact(vs)
    case JObj(ms) => MembersExact(ms)
    case _ => true
  }

  predicate ItemsExact(vs: seq<Json>)
    decreases vs, 1
  {
    vs == [] || (Exact(vs[0]) && ItemsExact(vs[1..]))
  }

  predicate MembersExact(ms: seq<(string, Json)>)
    decreases ms, 2
  {
    ms == [] || (MemberExact(ms[0]) && MembersExact(ms[1..]))
  }

  predicate MemberExact(m: (string, Json))
    decreases m, 1
  {
    Exact(m.1)
  }

  lemma IntTextStarts(n: int)
    ensures IntText(n) != [] && (IsDigit(IntText(n)[0]) || IntText(n)[0] == '-')
  {
    if n >= 0 {
      DecimalSpells(n);
    }
  }

  /** The text of a value starts with something that is neither white space nor a closing mark. */
  lemma TextStarts(v: Json)
    ensures Text(v) != [] && !IsWs(Text(v)[0]) && Text(v)[0] != ']' && Text(v)[0] != '}'
  {
    match v
    case JNum(r) => IntTextStarts(r.Floor);
    case _ =>
  }

  lemma FrontStays(a: string, rest: string)
    requires a != [] && !IsWs(a[0])
    ensures SkipWs(a + rest) == a + rest && a + rest != [] && (a + rest)[0] == a[0]
  {
  }

  lemma LiteralBack(word: string, rest: string)
    ensures word <= word + rest && (word + rest)[|word|..] == rest
  {
  }

  lemma NumberValue(n: int, rest: string, depth: nat)
    requires Ends(rest) && depth <= MAX_DEPTH
    ensures Value(IntText(n) + rest, depth) == Some((JNum(n as real), rest))
  {
    IntTextStarts(n);
    NumberBack(n, rest);
    assert (IntText(n) + rest)[0] == IntText(n)[0];
  }

  lemma StringValue(x: string, rest: string, depth: nat)
    requires depth <= MAX_DEPTH
    ensures Value(Quoted(x) + rest, depth) == Some((JStr(x), rest))
  {
    QuotedBack(x, rest);
  }

  lemma WordValue(v: Json, rest: string, depth: nat)
    requires (v.JNull? || v.JBool?) && depth <= MAX_DEPTH
    ensures Value(Text(v) + rest, depth) == Some((v, rest))
  {
    LiteralBack(Text(v), rest);
    assert (Text(v) + rest)[0] == Text(v)[0];
  }

  // ---------------------------------------------------------------- arrays

  lemma ItemStep(v: Json, t: string, depth: nat, acc: seq<Json>)
    requires Value(Text(v) + t, depth + 1) == Some((v, t)) && t != [] && (t[0] == ',' || t[0] == ']')
    ensures Items(Text(v) + t, depth, acc) ==
            if t[0] == ',' then Items(t[1..], depth, acc + [v]) else Some((JArr(acc + [v]), t[1..]))
  {
    TextStarts(v);
    FrontStays(Text(v), t);
  }

  /** What comes after the first element: the bracket, or a comma and the others. */
  function AfterItem(vs: seq<Json>, rest: string): string
    requires vs != []
  {
    if |vs| == 1 then "]" + rest else "," + (ItemsText(vs[1..]) + ("]" + rest))
  }

  lemma ItemsSplit(vs: seq<Json>, rest: string)
    requires vs != []
    ensures ItemsText(vs) + ("]" + rest) == Text(vs[0]) + AfterItem(vs, rest)
    ensures AfterItem(vs, rest) != [] && Ends(AfterItem(vs, rest))
    ensures |vs| == 1 ==> AfterItem(vs, rest)[0] == ']' && AfterItem(vs, rest)[1..] == rest
    ensures |vs| > 1 ==>
              AfterItem(vs, rest)[0] == ',' && AfterItem(vs, rest)[1..] == ItemsText(vs[1..]) + ("]" + rest)
  {
    if |vs| == 1 {
      assert Text(vs[0]) + [] == Text(vs[0]);
    } else {
      Assoc(Text(vs[0]), "," + ItemsText(vs[1..]), "]" + rest);
      Assoc(",", ItemsText(vs[1..]), "]" + rest);
    }
  }

  lemma OneMore<T>(acc: seq<T>, s: seq<T>)
    requires s != []
    ensures acc + [s[0]] + s[1..] == acc + s && (|s| == 1 ==> acc + [s[0]] == acc + s)
  {
    assert |s| == 1 ==> s[1..] == [];
  }

  lemma ArrayShape(vs: seq<Json>, rest: string)
    ensures var s := Text(JArr(vs)) + rest;
            s != [] && s[0] == '[' && s[1..] == ItemsText(vs) + ("]" + rest)
  {
  }

  lemma {:induction false} ItemsBack(vs: seq<Json>, rest: string, depth: nat, acc: seq<Json>)
    requires vs != [] && ItemsExact(vs) && depth + 1 + ItemsHeight(vs) <= MAX_DEPTH
    ensures Items(ItemsText(vs) + ("]" + rest), depth, acc) == Some((JArr(acc + vs), rest))
    decreases vs, 1
  {
    var t := AfterItem(vs, rest);
    ItemsSplit(vs, rest);
    ValueBack(vs[0], t, depth + 1);
    ItemStep(vs[0], t, depth, acc);
    OneMore(acc, vs);
    if |vs| > 1 {
      ItemsBack(vs[1..], rest, depth, acc + [vs[0]]);
    }
  }

  lemma ArrayBack(vs: seq<Json>, rest: string, depth: nat)
    requires ItemsExact(vs) && depth + Height(JArr(vs)) <= MAX_DEPTH
    ensures Value(Text(JArr(vs)) + rest, depth) == Some((JArr(vs), rest))
    decreases vs, 2
  {
    ArrayShape(vs, rest);
    var body := ItemsText(vs) + ("]" + rest);
    if vs == [] {
      assert body == "]" + rest && SkipWs(body) == body && body[1..] == rest;
    } else {
      ItemsSplit(vs, rest);
      TextStarts(vs[0]);
      FrontStays(Text(vs[0]), AfterItem(vs, rest));
      ItemsBack(vs, rest, depth, []);
      assert [] + vs == vs;
    }
  }

  // ---------------------------------------------------------------- objects

  lemma KeyBack(k: string, rest: string)
    ensures Key(Quoted(k) + (":" + rest)) == Some((k, rest))
  {
    QuotedBack(k, ":" + rest);
    FrontStays(Quoted(k), ":" + rest);
    assert SkipWs(":" + rest) == ":" + rest && (":" + rest)[1..] == rest;
  }

  lemma MemberStep(m: (string, Json), t: string, depth: nat, acc: seq<(string, Json)>)
    requires Value(Text(m.1) + t, depth + 1) == Some((m.1, t)) && t != [] && (t[0] == ',' || t[0] == '}')
    ensures Members(MemberText(m) + t, depth, acc) ==
            if t[0] == ',' then Members(t[1..], depth, acc + [m]) else Some((JObj(acc + [m]), t[1..]))
  {
    Assoc(Quoted(m.0), ":" + Text(m.1), t);
    Assoc(":", Text(m.1), t);
    KeyBack(m.0, Text(m.1) + t);
    TextStarts(m.1);
    FrontStays(Text(m.1), t);
  }

  function AfterMember(ms: seq<(string, Json)>, rest: string): string
    requires ms != []
  {
    if |ms| == 1 then "}" + rest else "," + (MembersText(ms[1..]) + ("}" + rest))
  }

  lemma MembersSplit(ms: seq<(string, Json)>, rest: string)
    requires ms != []
    ensures MembersText(ms) + ("}" + rest) == MemberText(ms[0]) + AfterMember(ms, rest)
    ensures AfterMember(ms, rest) != [] && Ends(AfterMember(ms, rest))
    ensures |ms| == 1 ==> AfterMember(ms, rest)[0] == '}' && AfterMember(ms, rest)[1..] == rest
    ensures |ms| > 1 ==>
              AfterMember(ms, rest)[0] == ',' && AfterMember(ms, rest)[1..] == MembersText(ms[1..]) + ("}" + rest)
  {
    if |ms| == 1 {
      assert MemberText(ms[0]) + [] == MemberText(ms[0]);
    } else {
      Assoc(MemberText(ms[0]), "," + MembersText(ms[1..]), "}" + rest);
      Assoc(",", MembersText(ms[1..]), "}" + rest);
    }
  }

  lemma ObjectShape(ms: seq<(string, Json)>, rest: string)
    ensures var s := Text(JObj(ms)) + rest;
            s != [] && s[0] == '{' && s[1..] == MembersText(ms) + ("}" + rest)
  {
  }

  lemma MemberValueBack(m: (string, Json), t: string, depth: nat)
    requires MemberExact(m) && Ends(t) && depth + MemberHeight(m) <= MAX_DEPTH
    ensures Value(Text(m.1) + t, depth) == Some((m.1, t))
    decreases m, 1
  {
    ValueBack(m.1, t, depth);
  }

  lemma {:induction false} MembersBack(ms: seq<(string, Json)>, rest: string, depth: nat, acc: seq<(string, Json)>)
    requires ms != [] && MembersExact(ms) && depth + 1 + MembersHeight(ms) <= MAX_DEPTH
    ensures Members(MembersText(ms) + ("}" + rest), depth, acc) == Some((JObj(acc + ms), rest))
    decreases ms, 2
  {
    var t := AfterMember(ms, rest);
    MembersSplit(ms, rest);
    MemberValueBack(ms[0], t, depth + 1);
    MemberStep(ms[0], t, depth, acc);
    OneMore(acc, ms);
    if |ms| > 1 {
      MembersBack(ms[1..], rest, depth, acc + [ms[0]]);
    }
  }

  lemma MemberStarts(m: (string, Json))
    ensures MemberText(m) != [] && MemberText(m)[0] == '"'
  {
  }

  lemma ObjectBack(ms: seq<(string, Json)>, rest: string, depth: nat)
    requires MembersExact(ms) && depth + Height(JObj(ms)) <= MAX_DEPTH
    ensures Value(Text(JObj(ms)) + rest, depth) == Some((JObj(ms), rest))
    decreases ms, 3
  {
    ObjectShape(ms, rest);
    var body := MembersText(ms) + ("}" + rest);
    if ms == [] {
      assert body == "}" + rest && SkipWs(body) == body && body[1..] == rest;
    } else {
      MembersSplit(ms, rest);
      MemberStarts(ms[0]);
      FrontStays(MemberText(ms[0]), AfterMember(ms, rest));
      MembersBack(ms, rest, depth, []);
      assert [] + ms == ms;
    }
  }

  // ---------------------------------------------------------------- any tree

  lemma {:induction false} ValueBack(v: Json, rest: string, depth: nat)
    requires Exact(v) && Ends(rest) && depth + Height(v) <= MAX_DEPTH
    ensures Value(Text(v) + rest, depth) == Some((v, rest))
    decreases v, 0
  {
    match v
    case JNum(r) => NumberValue(r.Floor, rest, depth);
    case JStr(x) => StringValue(x, rest, depth);
    case JArr(vs) => ArrayBack(vs, rest, depth);
    case JObj(ms) => ObjectBack(ms, rest, depth);
    case _ => WordValue(v, rest, depth);
  }

  // ---------------------------------------------------------------- too deep

  lemma ItemFails(v: Json, t: string, depth: nat, acc: seq<Json>)
    requires Value(Text(v) + t, depth + 1) == None
    ensures Items(Text(v) + t, depth, acc) == None
  {
    TextStarts(v);
    FrontStays(Text(v), t);
  }

  lemma {:induction false} ItemsTooDeep(vs: seq<Json>, rest: string, depth: nat, acc: seq<Json>)
    requires vs != [] && ItemsExact(vs) && depth + 1 + ItemsHeight(vs) > MAX_DEPTH
    ensures Items(ItemsText(vs) + ("]" + rest), depth, acc) == None
    decreases vs, 1
  {
    var t := AfterItem(vs, rest);
    ItemsSplit(vs, rest);
    if depth + 1 + Height(vs[0]) > MAX_DEPTH {
      TooDeep(vs[0], t, depth + 1);
      ItemFails(vs[0], t, depth, acc);
    } else {
      ValueBack(vs[0], t, depth + 1);
      ItemStep(vs[0], t, depth, acc);
      ItemsTooDeep(vs[1..], rest, depth, acc + [vs[0]]);
    }
  }

  lemma MemberFails(m: (string, Json), t: string, depth: nat, acc: seq<(string, Json)>)
    requires Value(Text(m.1) + t, depth + 1) == None
    ensures Members(MemberText(m) + t, depth, acc) == None
  {
    Assoc(Quoted(m.0), ":" + Text(m.1), t);
    Assoc(":", Text(m.1), t);
    KeyBack(m.0, Text(m.1) + t);
    TextStarts(m.1);
    FrontStays(Text(m.1), t);
  }

  lemma MemberTooDeep(m: (string, Json), t: string, depth: nat)
    requires MemberExact(m) && Ends(t) && depth + MemberHeight(m) > MAX_DEPTH
    ensures Value(Text(m.1) + t, depth) == None
    decreases m, 1
  {
    TooDeep(m.1, t, depth);
  }

  lemma {:induction false} MembersTooDeep(ms: seq<(string, Json)>, rest: string, depth: nat, acc: seq<(string, Json)>)
    requires ms != [] && MembersExact(ms) && depth + 1 + MembersHeight(ms) > MAX_DEPTH
    ensures Members(MembersText(ms) + ("}" + rest), depth, acc) == None
    decreases ms, 2
  {
    var t := AfterMember(ms, rest);
    MembersSplit(ms, rest);
    if depth + 1 + MemberHeight(ms[0]) > MAX_DEPTH {
      MemberTooDeep(ms[0], t, depth + 1);
      MemberFails(ms[0], t, depth, acc);
    } else {
      MemberValueBack(ms[0], t, depth + 1);
      MemberStep(ms[0], t, depth, acc);
      MembersTooDeep(ms[1..], rest, depth, acc + [ms[0]]);
    }
  }

  lemma ArrayTooDeep(vs: seq<Json>, rest: string, depth: nat)
    requires vs != [] && ItemsExact(vs) && depth + 1 + ItemsHeight(vs) > MAX_DEPTH
    ensures Value(Text(JArr(vs)) + rest, depth) == None
    decreases vs, 2
  {
    ArrayShape(vs, rest);
    ItemsSplit(vs, rest);
    TextStarts(vs[0]);
    FrontStays(Text(vs[0]), AfterItem(vs, rest));
    ItemsTooDeep(vs, rest, depth, []);
  }

  lemma ObjectTooDeep(ms: seq<(string, Json)>, rest: string, depth: nat)
    requires ms != [] && MembersExact(ms) && depth + 1 + MembersHeight(ms) > MAX_DEPTH
    ensures Value(Text(JObj(ms)) + rest, depth) == None
    decreases ms, 3
  {
    ObjectShape(ms, rest);
    MembersSplit(ms, rest);
    MemberStarts(ms[0]);
    FrontStays(MemberText(ms[0]), AfterMember(ms, rest));
    MembersTooDeep(ms, rest, depth, []);
  }

  lemma {:induction false} TooDeep(v: Json, rest: string, depth: nat)
    requires Exact(v) && Ends(rest) && depth + Height(v) > MAX_DEPTH
    ensures Value(Text(v) + rest, depth) == None
    decreases v, 0
  {
    if depth <= MAX_DEPTH {
      match v
      case JArr(vs) => ArrayTooDeep(vs, rest, depth);
      case JObj(ms) => ObjectTooDeep(ms, rest, depth);
    }
  }

  /**
    A tree with any strings and exact integers is read back as it is exactly when it is nested at
    most 64 deep; deeper ones are refused.
   */
  lemma RoundTrip(v: Json)
    requires Exact(v)
    ensures Parsed(Text(v)) == if Height(v) <= MAX_DEPTH then Some(v) else None
  {
    TextStarts(v);
    FrontStays(Text(v), []);
    assert Text(v) + [] == Text(v);
    if Height(v) <= MAX_DEPTH {
      ValueBack(v, [], 0);
    } else {
      TooDeep(v, [], 0);
    }
  }
}
