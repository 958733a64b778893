/** The parser accepts exactly the texts of the grammar nested at most 64 deep, and reads them as what they mean. */
module JsonAccepted {
  import opened Common
  import opened RaftTypes
  import opened Json
  import opened JsonNumbers
  import opened JsonStrings
  import opened JsonGrammar
  import opened JsonComplete

  // ---------------------------------------------------------------- flat values

  lemma WordCase(s: string, depth: nat)
    requires Value(s, depth).Some? && s[0] in "tfn"
    ensures var r := Value(s, depth).value;
            || (r.0 == JNull && s == "null" + r.1) || (r.0 == JBool(true) && s == "true" + r.1)
            || (r.0 == JBool(false) && s == "false" + r.1)
  {
  }

  lemma ReadIsWord(s: string, depth: nat) returns (t: Tree)
    requires Value(s, depth).Some? && s[0] in "tfn"
    ensures Valid(t) && Depth(t) == 0
    ensures s == TreeText(t) + Value(s, depth).value.1 && Value(s, depth).value.0 == Meaning(t)
  {
    WordCase(s, depth);
    var v := Value(s, depth).value.0;
    t := if v.JNull? then NullTree else BoolTree(v.flag);
  }

  lemma ReadIsString(s: string, depth: nat) returns (t: Tree)
    requires Value(s, depth).Some? && s[0] == '"'
    ensures Valid(t) && Depth(t) == 0
    ensures s == TreeText(t) + Value(s, depth).value.1 && Value(s, depth).value.0 == Meaning(t)
  {
    StringCase(s, depth);
    var rest := Value(s, depth).value.1;
    var ps := ReadIsPieces(s[1..], []);
    t := StrTree(ps);
    Unwrapped("\"", s, PiecesText(ps), "\"", rest);
    assert [] + PiecesMeaning(ps) == PiecesMeaning(ps);
  }

  lemma Unwrapped(open: string, s: string, body: string, close: string, rest: string)
    requires |open| == 1 && s != [] && s[0] == open[0] && s[1..] == body + (close + rest)
    ensures s == open + (body + close) + rest
  {
    assert s == open + s[1..];
    Assoc(body, close, rest);
    Assoc(open, body + close, rest);
  }

  lemma ReadIsNumber(s: string, depth: nat) returns (t: Tree)
    requires Value(s, depth).Some? && s[0] !in "{[\"tfn"
    ensures Valid(t) && Depth(t) == 0
    ensures s == TreeText(t) + Value(s, depth).value.1 && Value(s, depth).value.0 == Meaning(t)
  {
    OtherCase(s, depth, s[0]);
    var n := ReadIsNumeral(s);
    t := NumTree(n);
  }

  lemma ReadIsEmpty(s: string, depth: nat, u: string) returns (t: Tree)
    requires depth <= MAX_DEPTH && s != [] && (s[0] == '[' || s[0] == '{') && u == SkipWs(s[1..])
    requires u != [] && u[0] == if s[0] == '[' then ']' else '}'
    ensures Valid(t) && Depth(t) == 0
    ensures s == TreeText(t) + u[1..] && Value(s, depth) == Some((Meaning(t), u[1..]))
  {
    var b := SkippedIsBlank(s[1..]);
    var close := [u[0]];
    assert u == close + u[1..];
    Unwrapped([s[0]], s, b, close, u[1..]);
    if s[0] == '[' {
      ArrayCase(s, depth, u);
      t := EmptyArr(b);
    } else {
      ObjectCase(s, depth, u);
      t := EmptyObj(b);
    }
  }

  // ---------------------------------------------------------------- arrays

  lemma SlotIs(s: string, b: string, w: string, tree: Tree, t: string, c: string, u: string)
    requires s == b + w && w == TreeText(tree) + t && t == c + u
    ensures s == SlotText(Slot(b, tree, c)) + u
  {
    SlotShape(Slot(b, tree, c), u);
  }

  lemma ItemParts(s: string, depth: nat, acc: seq<Json>, w: string, u: string)
    requires Items(s, depth, acc).Some? && w == SkipWs(s)
    requires Value(w, depth + 1).Some? ==> u == SkipWs(Value(w, depth + 1).value.1)
    ensures Value(w, depth + 1).Some? && u != [] && (u[0] == ',' || u[0] == ']')
    ensures var v := Value(w, depth + 1).value.0;
            Items(s, depth, acc) ==
            if u[0] == ',' then Items(u[1..], depth, acc + [v]) else Some((JArr(acc + [v]), u[1..]))
  {
  }

  lemma OneSlot(x: Slot, u: string, acc: seq<Json>)
    requires ValidSlot(x) && u != [] && u[0] == ']'
    ensures ValidSlots([x]) && SlotsDepth([x]) == SlotDepth(x)
    ensures SlotText(x) + u == SlotsText([x]) + ("]" + u[1..]) && acc + SlotsMeaning([x]) == acc + [SlotMeaning(x)]
  {
    assert u == "]" + u[1..];
    SlotsSplit([x], u[1..]);
    SlotsStep([x], acc);
    assert [x][1..] == [];
  }

  lemma MoreSlots(x: Slot, ys: seq<Slot>, u: string, rest: string, acc: seq<Json>)
    requires ValidSlot(x) && ys != [] && ValidSlots(ys) && u != [] && u[0] == ',' && u[1..] == SlotsText(ys) + ("]" + rest)
    ensures var xs := [x] + ys;
            && ValidSlots(xs) && SlotsDepth(xs) == Larger(SlotDepth(x), SlotsDepth(ys))
            && SlotText(x) + u == SlotsText(xs) + ("]" + rest)
            && acc + SlotsMeaning(xs) == acc + [SlotMeaning(x)] + SlotsMeaning(ys)
  {
    var xs := [x] + ys;
    assert xs[1..] == ys && u == "," + u[1..];
    SlotsSplit(xs, rest);
    SlotsStep(xs, acc);
  }

  lemma {:induction false} ReadIsSlots(s: string, depth: nat, acc: seq<Json>) returns (xs: seq<Slot>)
    requires Items(s, depth, acc).Some?
    ensures xs != [] && ValidSlots(xs) && depth + 1 + SlotsDepth(xs) <= MAX_DEPTH
    ensures s == SlotsText(xs) + ("]" + Items(s, depth, acc).value.1)
    ensures Items(s, depth, acc).value.0 == JArr(acc + SlotsMeaning(xs))
    decreases |s|, 2
  {
    var w := SkipWs(s);
    var b := SkippedIsBlank(s);
    var tail := if Value(w, depth + 1).Some? then Value(w, depth + 1).value.1 else [];
    var u := SkipWs(tail);
    ItemParts(s, depth, acc, w, u);
    var tree := ReadIsTree(w, depth + 1);
    var c := SkippedIsBlank(tail);
    var x := Slot(b, tree, c);
    SlotIs(s, b, w, tree, tail, c, u);
    if u[0] == ',' {
      var ys := ReadIsSlots(u[1..], depth, acc + [Meaning(tree)]);
      MoreSlots(x, ys, u, Items(s, depth, acc).value.1, acc);
      xs := [x] + ys;
    } else {
      OneSlot(x, u, acc);
      xs := [x];
    }
  }

  lemma {:induction false} ReadIsArray(s: string, depth: nat) returns (t: Tree)
    requires Value(s, depth).Some? && s[0] == '['
    ensures Valid(t) && depth + Depth(t) <= MAX_DEPTH
    ensures s == TreeText(t) + Value(s, depth).value.1 && Value(s, depth).value.0 == Meaning(t)
    decreases |s|, 0
  {
    var u := SkipWs(s[1..]);
    ArrayCase(s, depth, u);
    if u != [] && u[0] == ']' {
      t := ReadIsEmpty(s, depth, u);
    } else {
      ItemsSkip(s[1..], depth, []);
      var xs := ReadIsSlots(s[1..], depth, []);
      Unwrapped("[", s, SlotsText(xs), "]", Value(s, depth).value.1);
      assert [] + SlotsMeaning(xs) == SlotsMeaning(xs);
      t := Arr(xs);
    }
  }

  // ---------------------------------------------------------------- objects

  lemma KeyParts(s: string, t: string)
    requires Key(s).Some? && t == SkipWs(s)
    ensures t != [] && t[0] == '"' && StringRest(t[1..], []).Some?
    ensures var u := StringRest(t[1..], []).value.1;
            && Key(s).value.0 == StringRest(t[1..], []).value.0
            && SkipWs(u) == ":" + Key(s).value.1
  {
  }

  lemma KeyIs(s: string, b: string, t: string, ps: seq<Good>, u: string, c: string, rest: string, e: Entry)
    requires s == b + t && t == QuotedText(ps) + u && u == c + (":" + rest)
    requires e.before == b && e.key == ps && e.after == c
    ensures s == KeyText(e) + rest
  {
    KeyShape(e, rest);
  }

  lemma ReadIsKey(s: string) returns (b: string, ps: seq<Good>, c: string)
    requires Key(s).Some?
    ensures Blank(b) && Blank(c) && Key(s).value.0 == PiecesMeaning(ps)
    ensures forall x :: s == KeyText(Entry(b, ps, c, x)) + Key(s).value.1
  {
    var t := SkipWs(s);
    KeyParts(s, t);
    var u, rest := StringRest(t[1..], []).value.1, Key(s).value.1;
    b := SkippedIsBlank(s);
    ps := ReadIsPieces(t[1..], []);
    c := SkippedIsBlank(u);
    Unwrapped("\"", t, PiecesText(ps), "\"", u);
    assert [] + PiecesMeaning(ps) == PiecesMeaning(ps);
    forall x ensures s == KeyText(Entry(b, ps, c, x)) + rest {
      KeyIs(s, b, t, ps, u, c, rest, Entry(b, ps, c, x));
    }
  }

  lemma MemberParts(s: string, depth: nat, acc: seq<(string, Json)>, w: string, u: string)
    requires Members(s, depth, acc).Some?
    requires Key(s).Some? ==> w == SkipWs(Key(s).value.1)
    requires Key(s).Some? && Value(w, depth + 1).Some? ==> u == SkipWs(Value(w, depth + 1).value.1)
    ensures Key(s).Some? && Value(w, depth + 1).Some? && u != [] && (u[0] == ',' || u[0] == '}')
    ensures var m := (Key(s).value.0, Value(w, depth + 1).value.0);
            Members(s, depth, acc) ==
            if u[0] == ',' then Members(u[1..], depth, acc + [m]) else Some((JObj(acc + [m]), u[1..]))
  {
  }

  lemma EntryIs(s: string, e: Entry, a: string, u: string)
    requires s == KeyText(e) + a && a == SlotText(e.slot) + u
    ensures s == EntryText(e) + u
  {
    Assoc(KeyText(e), SlotText(e.slot), u);
  }

  lemma EntriesAre(e: Entry, rest: string, es: seq<Entry>)
    requires es != [] && es[0] == e
    ensures EntriesText(es) + ("}" + rest) == EntryText(e) + AfterEntry(es, rest)
  {
    EntriesSplit(es, rest);
    Assoc(KeyText(e), SlotText(e.slot), AfterEntry(es, rest));
  }

  lemma OneEntry(e: Entry, u: string, acc: seq<(string, Json)>)
    requires ValidEntry(e) && u != [] && u[0] == '}'
    ensures ValidEntries([e]) && EntriesDepth([e]) == EntryDepth(e)
    ensures EntryText(e) + u == EntriesText([e]) + ("}" + u[1..]) && acc + EntriesMeaning([e]) == acc + [EntryMeaning(e)]
  {
    assert u == "}" + u[1..];
    EntriesAre(e, u[1..], [e]);
    EntriesStep([e], acc);
    assert [e][1..] == [];
  }

  lemma MoreEntriesText(e: Entry, fs: seq<Entry>, u: string, rest: string)
    requires fs != [] && u != [] && u[0] == ',' && u[1..] == EntriesText(fs) + ("}" + rest)
    ensures EntryText(e) + u == EntriesText([e] + fs) + ("}" + rest)
  {
    var es := [e] + fs;
    assert es[1..] == fs && u == "," + u[1..];
    EntriesAre(e, rest, es);
  }

  lemma MoreEntries(e: Entry, fs: seq<Entry>, acc: seq<(string, Json)>)
    requires ValidEntry(e) && fs != [] && ValidEntries(fs)
    ensures var es := [e] + fs;
            && ValidEntries(es) && EntriesDepth(es) == Larger(EntryDepth(e), EntriesDepth(fs))
            && acc + EntriesMeaning(es) == acc + [EntryMeaning(e)] + EntriesMeaning(fs)
  {
    var es := [e] + fs;
    assert es[1..] == fs;
    EntriesStep(es, acc);
  }

  lemma {:induction false} ReadIsEntries(s: string, depth: nat, acc: seq<(string, Json)>) returns (es: seq<Entry>)
    requires Members(s, depth, acc).Some?
    ensures es != [] && ValidEntries(es) && depth + 1 + EntriesDepth(es) <= MAX_DEPTH
    ensures s == EntriesText(es) + ("}" + Members(s, depth, acc).value.1)
    ensures Members(s, depth, acc).value.0 == JObj(acc + EntriesMeaning(es))
    decreases |s|, 2
  {
    var a := if Key(s).Some? then Key(s).value.1 else [];
    var w := SkipWs(a);
    var tail := if Value(w, depth + 1).Some? then Value(w, depth + 1).value.1 else [];
    var u := SkipWs(tail);
    MemberParts(s, depth, acc, w, u);
    var b, ps, c := ReadIsKey(s);
    var before := SkippedIsBlank(a);
    var tree := ReadIsTree(w, depth + 1);
    var after := SkippedIsBlank(tail);
    var e := Entry(b, ps, c, Slot(before, tree, after));
    SlotIs(a, before, w, tree, tail, after, u);
    EntryIs(s, e, a, u);
    if u[0] == ',' {
      var fs := ReadIsEntries(u[1..], depth, acc + [EntryMeaning(e)]);
      MoreEntriesText(e, fs, u, Members(s, depth, acc).value.1);
      MoreEntries(e, fs, acc);
      es := [e] + fs;
    } else {
      OneEntry(e, u, acc);
      es := [e];
    }
  }

  lemma {:induction false} ReadIsObject(s: string, depth: nat) returns (t: Tree)
    requires Value(s, depth).Some? && s[0] == '{'
    ensures Valid(t) && depth + Depth(t) <= MAX_DEPTH
    ensures s == TreeText(t) + Value(s, depth).value.1 && Value(s, depth).value.0 == Meaning(t)
    decreases |s|, 0
  {
    var u := SkipWs(s[1..]);
    ObjectCase(s, depth, u);
    if u != [] && u[0] == '}' {
      t := ReadIsEmpty(s, depth, u);
    } else {
      MembersSkip(s[1..], depth, []);
      var es := ReadIsEntries(s[1..], depth, []);
      Unwrapped("{", s, EntriesText(es), "}", Value(s, depth).value.1);
      assert [] + EntriesMeaning(es) == EntriesMeaning(es);
      t := Obj(es);
    }
  }

  // ---------------------------------------------------------------- any text

  lemma NotTooDeep(s: string, depth: nat)
    requires Value(s, depth).Some?
    ensures depth <= MAX_DEPTH && s != []
  {
  }

  /** Whatever is read is a tree of the grammar, and what it means. */
  lemma {:induction false} ReadIsTree(s: string, depth: nat) returns (t: Tree)
    requires Value(s, depth).Some?
    ensures Valid(t) && depth + Depth(t) <= MAX_DEPTH
    ensures s == TreeText(t) + Value(s, depth).value.1 && Value(s, depth).value.0 == Meaning(t)
    decreases |s|, 1
  {
    NotTooDeep(s, depth);
    if s[0] == '[' {
      t := ReadIsArray(s, depth);
    } else if s[0] == '{' {
      t := ReadIsObject(s, depth);
    } else if s[0] == '"' {
      t := ReadIsString(s, depth);
    } else if s[0] in "tfn" {
      t := ReadIsWord(s, depth);
    } else {
      t := ReadIsNumber(s, depth);
    }
  }

  /** `s` is the text of a document that means `v`. */
  ghost predicate IsDocument(s: string, v: Json) {
    exists x: Slot :: ValidSlot(x) && SlotDepth(x) <= MAX_DEPTH && SlotText(x) == s && SlotMeaning(x) == v
  }

  lemma ParsedIsDocument(s: string)
    requires Parsed(s).Some?
    ensures IsDocument(s, Parsed(s).value)
  {
    var w := SkipWs(s);
    var rest := Value(w, 0).value.1;
    var before := SkippedIsBlank(s);
    var tree := ReadIsTree(w, 0);
    var after := SkippedIsBlank(rest);
    var x := Slot(before, tree, after);
    SlotIs(s, before, w, tree, rest, after, []);
    assert s == SlotText(x) && SlotMeaning(x) == Parsed(s).value;
  }

  /** A text parses to a value if and only if it is a document that means it. */
  lemma ParsedIff(s: string, v: Json)
    ensures Parsed(s) == Some(v) <==> IsDocument(s, v)
  {
    if Parsed(s).Some? {
      ParsedIsDocument(s);
    }
    if IsDocument(s, v) {
      var x: Slot :| ValidSlot(x) && SlotDepth(x) <= MAX_DEPTH && SlotText(x) == s && SlotMeaning(x) == v;
      DocumentReads(x);
    }
  }

  /** So the grammar is unambiguous: a text means one value at most. */
  lemma OneMeaning(x: Slot, y: Slot)
    requires ValidSlot(x) && ValidSlot(y) && SlotText(x) == SlotText(y)
    requires SlotDepth(x) <= MAX_DEPTH && SlotDepth(y) <= MAX_DEPTH
    ensures SlotMeaning(x) == SlotMeaning(y)
  {
    DocumentReads(x);
    DocumentReads(y);
  }
}
