/**
  JSON text and trees: what the writer puts out for a tree, and what the parser makes of any text
  (sections 2 to 7 of RFC 8259). A character stands for one byte.
 */
module Json {
  import opened RaftTypes

  datatype Json =
    | JNull
    | JBool(flag: bool)
    | JNum(number: real)
    | JStr(text: string)
    | JArr(items: seq<Json>)
    | JObj(members: seq<(string, Json)>)

  const MAX_DEPTH: nat := 64

  // ---------------------------------------------------------------- writing

  function Digit(d: nat): char
    requires d < 10
  {
    "0123456789"[d]
  }

  function Decimal(n: nat): (s: string)
    ensures |s| >= 1
  {
    if n < 10 then [Digit(n)] else Decimal(n / 10) + [Digit(n % 10)]
  }

  function IntText(n: int): string {
    if n < 0 then "-" + Decimal(-n) else Decimal(n)
  }

  function HexChar(d: nat): char
    requires d < 16
  {
    "0123456789abcdef"[d]
  }

  /** One character of a string, escaped where it has to be. */
  function Escaped(c: char): string {
    if c == '"' then "\\\""
    else if c == '\\' then "\\\\"
    else if c == '\n' then "\\n"
    else if c == '\r' then "\\r"
    else if c == '\t' then "\\t"
    else if c as int < 0x20 then "\\u00" + [HexChar(c as int / 16), HexChar(c as int % 16)]
    else [c]
  }

  function EscapedAll(s: string): string {
    if s == [] then [] else Escaped(s[0]) + EscapedAll(s[1..])
  }

  function Quoted(s: string): string {
    "\"" + EscapedAll(s) + "\""
  }

  function Text(v: Json): string
    decreases v, 0
  {
    match v
    case JNull => "null"
    case JBool(b) => if b then "true" else "false"
    case JNum(r) => IntText(r.Floor)
    case JStr(s) => Quoted(s)
    case JArr(vs) => "[" + ItemsText(vs) + "]"
    case JObj(ms) => "{" + MembersText(ms) + "}"
  }

  function ItemsText(vs: seq<Json>): string
    decreases vs, 1
  {
    if vs == [] then [] else Text(vs[0]) + (if |vs| == 1 then [] else "," + ItemsText(vs[1..]))
  }

  function MemberText(m: (string, Json)): string
    decreases m, 1
  {
    Quoted(m.0) + (":" + Text(m.1))
  }

  function MembersText(ms: seq<(string, Json)>): string
    decreases ms, 2
  {
    if ms == [] then [] else MemberText(ms[0]) + (if |ms| == 1 then [] else "," + MembersText(ms[1..]))
  }

  // ---------------------------------------------------------------- reading

  predicate IsWs(c: char) {
    c == ' ' || c == '\t' || c == '\n' || c == '\r'
  }

  predicate IsDigit(c: char) {
    '0' <= c <= '9'
  }

  function SkipWs(s: string): (r: string)
    ensures |r| <= |s|
  {
    if s != [] && IsWs(s[0]) then SkipWs(s[1..]) else s
  }

  function HexValue(c: char): Option<nat> {
    if '0' <= c <= '9' then Some(c as int - '0' as int)
    else if 'a' <= c <= 'f' then Some(c as int - 'a' as int + 10)
    else if 'A' <= c <= 'F' then Some(c as int - 'A' as int + 10)
    else None
  }

  /** Four hexadecimal digits. */
  function Hex4(s: string): (r: Option<(nat, string)>)
    ensures r.Some? ==> r.value.0 < 0x1_0000 && |r.value.1| < |s|
  {
    if |s| < 4 then None
    else match (HexValue(s[0]), HexValue(s[1]), HexValue(s[2]), HexValue(s[3]))
      case (Some(a), Some(b), Some(c), Some(d)) =>
        assert a < 16 && b < 16 && c < 16 && d < 16;
        Some((((a * 16 + b) * 16 + c) * 16 + d, s[4..]))
      case _ => None
  }

  function Utf8(cp: nat): string
    requires cp < 0x11_0000
  {
    if cp <= 0x7F then [cp as char]
    else if cp <= 0x7FF then [(0xC0 + cp / 0x40) as char, (0x80 + cp % 0x40) as char]
    else if cp <= 0xFFFF then
      [(0xE0 + cp / 0x1000) as char, (0x80 + cp / 0x40 % 0x40) as char, (0x80 + cp % 0x40) as char]
    else [(0xF0 + cp / 0x4_0000) as char, (0x80 + cp / 0x1000 % 0x40) as char,
          (0x80 + cp / 0x40 % 0x40) as char, (0x80 + cp % 0x40) as char]
  }

  /** After `\u`: a code point, or a surrogate pair, as UTF-8. */
  function Unicode(s: string): (r: Option<(string, string)>)
    ensures r.Some? ==> |r.value.1| < |s|
  {
    match Hex4(s)
    case None => None
    case Some((a, t)) =>
      if !(0xD800 <= a <= 0xDBFF) then Some((Utf8(a), t))
      else if !("\\u" <= t) then None
      else match Hex4(t[2..])
        case None => None
        case Some((b, u)) =>
          if !(0xDC00 <= b <= 0xDFFF) then None
          else Some((Utf8(0x1_0000 + (a - 0xD800) * 0x400 + (b - 0xDC00)), u))
  }

  /** After a backslash. */
  function Escape(s: string): (r: Option<(string, string)>)
    ensures r.Some? ==> |r.value.1| < |s|
  {
    if s == [] then None
    else match s[0]
      case '"' => Some(("\"", s[1..]))
      case '\\' => Some(("\\", s[1..]))
      case '/' => Some(("/", s[1..]))
      case 'b' => Some(([8 as char], s[1..]))
      case 'f' => Some(([12 as char], s[1..]))
      case 'n' => Some(("\n", s[1..]))
      case 'r' => Some(("\r", s[1..]))
      case 't' => Some(("\t", s[1..]))
      case 'u' => Unicode(s[1..])
      case _ => None
  }

  /** The rest of a string after its opening quote, with `acc` read so far. */
  function StringRest(s: string, acc: string): (r: Option<(string, string)>)
    ensures r.Some? ==> |r.value.1| < |s|
    decreases |s|
  {
    if s == [] then None
    else if s[0] == '"' then Some((acc, s[1..]))
    else if s[0] == '\\' then
      match Escape(s[1..])
      case None => None
      case Some((x, t)) => StringRest(t, acc + x)
    else StringRest(s[1..], acc + [s[0]])
  }

  // ---------------------------------------------------------------- numbers

  function DigitsOf(s: string): (n: nat)
    ensures n <= |s|
  {
    if s != [] && IsDigit(s[0]) then 1 + DigitsOf(s[1..]) else 0
  }

  function DigitValue(c: char): nat {
    if IsDigit(c) then c as int - '0' as int else 0
  }

  function NatOf(s: string): nat {
    if s == [] then 0 else NatOf(s[..|s| - 1]) * 10 + DigitValue(s[|s| - 1])
  }

  function Pow10(n: nat): (r: real)
    ensures r >= 1.0
  {
    if n == 0 then 1.0 else 10.0 * Pow10(n - 1)
  }

  /** How many characters the integer part takes: one zero, or digits that do not start with zero. */
  function IntegerLength(s: string): (n: nat)
    ensures n <= |s|
  {
    if s == [] || !IsDigit(s[0]) then 0 else if s[0] == '0' then 1 else DigitsOf(s)
  }

  function FractionLength(s: string): (n: nat)
    ensures n <= |s|
  {
    if s == [] || s[0] != '.' then 0 else 1 + DigitsOf(s[1..])
  }

  /** `None` for an `e` without digits. */
  function ExponentLength(s: string): (n: Option<nat>)
    ensures n.Some? ==> n.value <= |s|
  {
    if s == [] || (s[0] != 'e' && s[0] != 'E') then Some(0)
    else
      var sign := if |s| > 1 && (s[1] == '+' || s[1] == '-') then 1 else 0;
      var k := DigitsOf(s[1 + sign..]);
      if k == 0 then None else Some(1 + sign + k)
  }

  function ExponentValue(s: string): int {
    if |s| < 2 then 0
    else if s[1] == '-' then -(NatOf(s[2..]) as int)
    else if s[1] == '+' then NatOf(s[2..])
    else NatOf(s[1..])
  }

  function Scaled(r: real, e: int): real {
    if e >= 0 then r * Pow10(e) else r / Pow10(-e)
  }

  /** The number a token denotes. */
  function Amount(negative: bool, whole: string, fraction: string, exponent: string): real {
    var digits := if fraction == [] then [] else fraction[1..];
    var r := Scaled(NatOf(whole + digits) as real, ExponentValue(exponent) - |digits|);
    if negative then -r else r
  }

  function Number(s: string): (r: Option<(real, string)>)
    ensures r.Some? ==> |r.value.1| < |s|
  {
    var negative := s != [] && s[0] == '-';
    var a := if negative then s[1..] else s;
    var i := IntegerLength(a);
    if i == 0 then None
    else
      var b := a[i..];
      var f := FractionLength(b);
      var c := b[f..];
      match ExponentLength(c)
      case None => None
      case Some(e) => Some((Amount(negative, a[..i], b[..f], c[..e]), c[e..]))
  }

  // ---------------------------------------------------------------- values

  /** The value at the front of `s` and what follows it. */
  function Value(s: string, depth: nat): (r: Option<(Json, string)>)
    ensures r.Some? ==> |r.value.1| < |s|
    decreases |s|, 0
  {
    if depth > MAX_DEPTH || s == [] then None
    else match s[0]
      case '{' =>
        var t := SkipWs(s[1..]);
        if t != [] && t[0] == '}' then Some((JObj([]), t[1..])) else Members(t, depth, [])
      case '[' =>
        var t := SkipWs(s[1..]);
        if t != [] && t[0] == ']' then Some((JArr([]), t[1..])) else Items(t, depth, [])
      case '"' =>
        (match StringRest(s[1..], [])
         case None => None
         case Some((x, t)) => Some((JStr(x), t)))
      case 't' => if "true" <= s then Some((JBool(true), s[4..])) else None
      case 'f' => if "false" <= s then Some((JBool(false), s[5..])) else None
      case 'n' => if "null" <= s then Some((JNull, s[4..])) else None
      case _ =>
        (match Number(s)
         case None => None
         case Some((x, t)) => Some((JNum(x), t)))
  }

  /** The elements of an array from here to its bracket, after those in `acc`. */
  function Items(s: string, depth: nat, acc: seq<Json>): (r: Option<(Json, string)>)
    ensures r.Some? ==> |r.value.1| < |s|
    decreases |s|, 1
  {
    match Value(SkipWs(s), depth + 1)
    case None => None
    case Some((v, t)) =>
      var u := SkipWs(t);
      if u == [] then None
      else if u[0] == ',' then Items(u[1..], depth, acc + [v])
      else if u[0] == ']' then Some((JArr(acc + [v]), u[1..]))
      else None
  }

  /** A key and its colon. */
  function Key(s: string): (r: Option<(string, string)>)
    ensures r.Some? ==> |r.value.1| < |s|
  {
    var t := SkipWs(s);
    if t == [] || t[0] != '"' then None
    else match StringRest(t[1..], [])
      case None => None
      case Some((k, u)) =>
        var w := SkipWs(u);
        if w == [] || w[0] != ':' then None else Some((k, w[1..]))
  }

  function Members(s: string, depth: nat, acc: seq<(string, Json)>): (r: Option<(Json, string)>)
    ensures r.Some? ==> |r.value.1| < |s|
    decreases |s|, 1
  {
    match Key(s)
    case None => None
    case Some((k, a)) =>
      match Value(SkipWs(a), depth + 1)
      case None => None
      case Some((v, t)) =>
        var u := SkipWs(t);
        if u == [] then None
        else if u[0] == ',' then Members(u[1..], depth, acc + [(k, v)])
        else if u[0] == '}' then Some((JObj(acc + [(k, v)]), u[1..]))
        else None
  }

  /** A whole document: one value with nothing but white space around it. */
  function Parsed(s: string): Option<Json> {
    match Value(SkipWs(s), 0)
    case None => None
    case Some((v, t)) => if SkipWs(t) == [] then Some(v) else None
  }
}
