/** The writer: calls that open, close and fill containers, with commas kept by a stack of flags. */
module JsonWriters {
  import opened RaftTypes
  import opened Json

  class JsonWriter {
    var out: string
    /** Per open container: is the next element its first? */
    var first: seq<bool>
    var expecting: bool

    constructor ()
      ensures out == [] && first == [] && !expecting
    {
      out, first, expecting := [], [], false;
    }

    method Separate()
      modifies this`out, this`first
      ensures out == old(out) + Comma(old(first)) && first == Filled(old(first))
    {
      if first != [] {
        if !first[|first| - 1] {
          out := out + ",";
        }
        first := first[..|first| - 1] + [false];
      }
    }

    method BeforeValue()
      modifies this
      ensures out == old(out) + Lead(old(first), old(expecting)) && first == Next(old(first), old(expecting))
      ensures !expecting
    {
      if expecting {
        expecting := false;
        return;
      }
      Separate();
    }

    method AppendEscaped(text: string)
      modifies this`out
      ensures out == old(out) + Quoted(text)
    {
      out := out + "\"";
      ghost var start := out;
      for i := 0 to |text|
        invariant out + EscapedAll(text[i..]) == start + EscapedAll(text)
      {
        EscapedFrom(text, i);
        Joins(out, Escaped(text[i]), EscapedAll(text[i + 1..]));
        out := out + Escaped(text[i]);
      }
      assert out + [] == out;
      out := out + "\"";
    }

    method BeginObject()
      modifies this
      ensures out == old(out) + Lead(old(first), old(expecting)) + "{" && !expecting
      ensures first == Next(old(first), old(expecting)) + [true]
    {
      BeforeValue();
      out := out + "{";
      first := first + [true];
    }

    method BeginArray()
      modifies this
      ensures out == old(out) + Lead(old(first), old(expecting)) + "[" && !expecting
      ensures first == Next(old(first), old(expecting)) + [true]
    {
      BeforeValue();
      out := out + "[";
      first := first + [true];
    }

    method EndObject()
      requires first != []
      modifies this`out, this`first
      ensures out == old(out) + "}" && first == old(first)[..|old(first)| - 1]
    {
      out := out + "}";
      first := first[..|first| - 1];
    }

    method EndArray()
      requires first != []
      modifies this`out, this`first
      ensures out == old(out) + "]" && first == old(first)[..|old(first)| - 1]
    {
      out := out + "]";
      first := first[..|first| - 1];
    }

    method Key(name: string)
      modifies this
      ensures out == old(out) + Comma(old(first)) + Quoted(name) + ":" && first == Filled(old(first)) && expecting
    {
      Separate();
      AppendEscaped(name);
      out := out + ":";
      expecting := true;
    }

    /** A string, an integer, a flag or null. */
    method Scalar(v: Json)
      requires !v.JArr? && !v.JObj?
      modifies this
      ensures out == old(out) + Lead(old(first), old(expecting)) + Text(v)
      ensures first == Next(old(first), old(expecting)) && !expecting
    {
      BeforeValue();
      match v {
        case JStr(x) => AppendEscaped(x);
        case JNum(r) => out := out + IntText(r.Floor);
        case JBool(b) => out := out + (if b then "true" else "false");
        case JNull => out := out + "null";
      }
    }
  }

  function Comma(first: seq<bool>): string {
    if first != [] && !first[|first| - 1] then "," else []
  }

  function Filled(first: seq<bool>): seq<bool> {
    if first == [] then [] else first[..|first| - 1] + [false]
  }

  function Lead(first: seq<bool>, expecting: bool): string {
    if expecting then [] else Comma(first)
  }

  function Next(first: seq<bool>, expecting: bool): seq<bool> {
    if expecting then first else Filled(first)
  }

  lemma EscapedFrom(text: string, i: nat)
    requires i < |text|
    ensures EscapedAll(text[i..]) == Escaped(text[i]) + EscapedAll(text[i + 1..])
  {
    assert text[i..][1..] == text[i + 1..];
  }

  lemma Joins(a: string, b: string, c: string)
    ensures a + b + c == a + (b + c)
  {
  }

  // ---------------------------------------------------------------- driving it over a tree

  /** The calls a caller makes for a value write the text of that value, with the comma it needs. */
  method Emit(w: JsonWriter, v: Json)
    modifies w
    ensures w.out == old(w.out) + Lead(old(w.first), old(w.expecting)) + Text(v)
    ensures w.first == Next(old(w.first), old(w.expecting)) && !w.expecting
    decreases v, 0
  {
    match v {
      case JArr(vs) => EmitArray(w, vs);
      case JObj(ms) => EmitObject(w, ms);
      case _ => w.Scalar(v);
    }
  }

  method EmitArray(w: JsonWriter, vs: seq<Json>)
    modifies w
    ensures w.out == old(w.out) + Lead(old(w.first), old(w.expecting)) + Text(JArr(vs))
    ensures w.first == Next(old(w.first), old(w.expecting)) && !w.expecting
    decreases vs, 2
  {
    ghost var pre, next := w.out + Lead(w.first, w.expecting), Next(w.first, w.expecting);
    w.BeginArray();
    Opened(next, |vs|);
    EmitItems(w, vs);
    NoComma(next, ItemsText(vs));
    w.EndArray();
    Wraps(pre, "[", ItemsText(vs), "]");
  }

  method EmitObject(w: JsonWriter, ms: seq<(string, Json)>)
    modifies w
    ensures w.out == old(w.out) + Lead(old(w.first), old(w.expecting)) + Text(JObj(ms))
    ensures w.first == Next(old(w.first), old(w.expecting)) && !w.expecting
    decreases ms, 3
  {
    ghost var pre, next := w.out + Lead(w.first, w.expecting), Next(w.first, w.expecting);
    w.BeginObject();
    Opened(next, |ms|);
    EmitMembers(w, ms);
    NoComma(next, MembersText(ms));
    w.EndObject();
    Wraps(pre, "{", MembersText(ms), "}");
  }

  /** Closing a container gives back the flags from before it was opened. */
  lemma Opened(next: seq<bool>, n: nat)
    ensures After(next + [true], n) != [] && After(next + [true], n)[..|After(next + [true], n)| - 1] == next
  {
  }

  lemma NoComma(next: seq<bool>, t: string)
    ensures Comma(next + [true]) + t == t
  {
  }

  lemma Wraps(pre: string, a: string, b: string, c: string)
    ensures pre + a + b + c == pre + (a + b + c)
  {
  }

  /** The flag after `n` more elements. */
  function After(first: seq<bool>, n: nat): seq<bool> {
    if n == 0 then first else Filled(first)
  }

  method EmitItems(w: JsonWriter, vs: seq<Json>)
    requires w.first != [] && !w.expecting
    modifies w
    ensures w.out == old(w.out) + (if vs == [] then [] else Comma(old(w.first)) + ItemsText(vs))
    ensures w.first == After(old(w.first), |vs|) && !w.expecting
    decreases vs, 1
  {
    if vs != [] {
      ghost var o, c := w.out, Comma(w.first);
      Emit(w, vs[0]);
      EmitItems(w, vs[1..]);
      ghost var tail := if |vs| == 1 then [] else "," + ItemsText(vs[1..]);
      Wraps(o, c, Text(vs[0]), tail);
      Joins(c, Text(vs[0]), tail);
    }
  }

  method EmitMember(w: JsonWriter, m: (string, Json))
    requires w.first != [] && !w.expecting
    modifies w
    ensures w.out == old(w.out) + (Comma(old(w.first)) + MemberText(m))
    ensures w.first == Filled(old(w.first)) && !w.expecting
    decreases m, 1
  {
    ghost var o, c := w.out, Comma(w.first);
    w.Key(m.0);
    Emit(w, m.1);
    MemberJoins(o, c, Quoted(m.0), Text(m.1));
  }

  lemma MemberJoins(o: string, c: string, q: string, t: string)
    ensures o + c + q + ":" + [] + t == o + (c + (q + (":" + t)))
  {
  }

  method EmitMembers(w: JsonWriter, ms: seq<(string, Json)>)
    requires w.first != [] && !w.expecting
    modifies w
    ensures w.out == old(w.out) + (if ms == [] then [] else Comma(old(w.first)) + MembersText(ms))
    ensures w.first == After(old(w.first), |ms|) && !w.expecting
    decreases ms, 2
  {
    if ms != [] {
      ghost var o, c := w.out, Comma(w.first);
      EmitMember(w, ms[0]);
      EmitMembers(w, ms[1..]);
      ghost var tail := if |ms| == 1 then [] else "," + MembersText(ms[1..]);
      Joins(o, c + MemberText(ms[0]), tail);
      Joins(c, MemberText(ms[0]), tail);
    }
  }
}
