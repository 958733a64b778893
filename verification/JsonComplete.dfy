/** Every text of the grammar that is nested at most 64 deep is read, and as what it means. */
module JsonComplete {
  import opened Common
  import opened RaftTypes
  import opened Json
  import opened JsonNumbers
  import opened JsonStrings
  import opened JsonGrammar

  // ---------------------------------------------------------------- one case of the parser at a time

  lemma ArrayCase(s: string, depth: nat, t: string)
    requires depth <= MAX_DEPTH && s != [] && s[0] == '[' && t == SkipWs(s[1..])
    ensures Value(s, depth) == if t != [] && t[0] == ']' then Some((JArr([]), t[1..])) else Items(t, depth, [])
  {
  }

  lemma ObjectCase(s: string, depth: nat, t: string)
    requires depth <= MAX_DEPTH && s != [] && s[0] == '{' && t == SkipWs(s[1..])
    ensures Value(s, depth) == if t != [] && t[0] == '}' then Some((JObj([]), t[1..])) else Members(t, depth, [])
  {
  }

  lemma StringCase(s: string, depth: nat)
    requires depth <= MAX_DEPTH && s != [] && s[0] == '"'
    ensures Value(s, depth) == match StringRest(s[1..], [])
                               case None => None
                               case Some((x, t)) => Some((JStr(x), t))
  {
  }

  lemma OtherCase(s: string, depth: nat, c: char)
    requires depth <= MAX_DEPTH && s != [] && s[0] == c
    requires c != '{' && c != '[' && c != '"' && c != 't' && c != 'f' && c != 'n'
    ensures Value(s, depth) == match Number(s)
                               case None => None
                               case Some((x, t)) => Some((JNum(x), t))
  {
  }

  predicate StartsNumber(c: char) {
    c == '-' || IsDigit(c)
  }

  lemma NumberCase(s: string, depth: nat)
    requires depth <= MAX_DEPTH && s != [] && StartsNumber(s[0])
    ensures Value(s, depth) == match Number(s)
                               case None => None
                               case Some((x, t)) => Some((JNum(x), t))
  {
    OtherCase(s, depth, s[0]);
  }

  // ---------------------------------------------------------------- where things start

  lemma NumeralStarts(n: Numeral, rest: string)
    requires ValidNumeral(n)
    ensures var s := NumeralText(n) + rest; s != [] && StartsNumber(s[0])
  {
    assert IsDigit(n.whole[0]);
  }

  /** The first character of a value: no blank and no closing mark. */
  predicate StartsValue(s: string) {
    s != [] && !IsWs(s[0]) && s[0] != ']' && s[0] != '}'
  }

  lemma TreeStarts(t: Tree, rest: string)
    requires Valid(t)
    ensures StartsValue(TreeText(t) + rest)
  {
    match t
    case NumTree(n) => NumeralStarts(n, rest);
    case _ => assert (TreeText(t) + rest)[0] == TreeText(t)[0];
  }

  /** What may follow a value inside an array or object. */
  predicate Delimits(rest: string) {
    rest != [] && (rest[0] == ',' || rest[0] == ']' || rest[0] == '}')
  }

  lemma BlankCloses(b: string, rest: string)
    requires Blank(b) && (rest == [] || Delimits(rest))
    ensures Closes(b + rest)
  {
    if b != [] {
      assert IsWs(b[0]) && (b + rest)[0] == b[0];
    } else {
      assert b + rest == rest;
    }
  }

  // ---------------------------------------------------------------- flat values

  lemma WordReads(word: string, v: Json, rest: string, depth: nat)
    requires depth <= MAX_DEPTH
    requires (word, v) in [("null", JNull), ("true", JBool(true)), ("false", JBool(false))]
    ensures Value(word + rest, depth) == Some((v, rest))
  {
    var s := word + rest;
    assert word <= s && s[|word|..] == rest && s[0] == word[0];
  }

  lemma NumReads(n: Numeral, rest: string, depth: nat)
    requires ValidNumeral(n) && Closes(rest) && depth <= MAX_DEPTH
    ensures Value(NumeralText(n) + rest, depth) == Some((JNum(Denoted(n)), rest))
  {
    NumeralStarts(n, rest);
    NumberCase(NumeralText(n) + rest, depth);
    NumeralIsRead(n, rest);
  }

  lemma QuotedReads(ps: seq<Good>, rest: string)
    ensures var s := QuotedText(ps) + rest;
            s != [] && s[0] == '"' && StringRest(s[1..], []) == Some((PiecesMeaning(ps), rest))
  {
    var s := QuotedText(ps) + rest;
    Assoc("\"", PiecesText(ps) + "\"", rest);
    Assoc(PiecesText(ps), "\"", rest);
    assert s[1..] == PiecesText(ps) + ("\"" + rest);
    PiecesRead(ps, rest, []);
    assert [] + PiecesMeaning(ps) == PiecesMeaning(ps);
  }

  lemma StrReads(ps: seq<Good>, rest: string, depth: nat)
    requires depth <= MAX_DEPTH
    ensures Value(QuotedText(ps) + rest, depth) == Some((JStr(PiecesMeaning(ps)), rest))
  {
    QuotedReads(ps, rest);
    StringCase(QuotedText(ps) + rest, depth);
  }

  // ---------------------------------------------------------------- around a value

  lemma SlotShape(x: Slot, rest: string)
    ensures SlotText(x) + rest == x.before + (TreeText(x.tree) + (x.after + rest))
  {
    Assoc(x.before, TreeText(x.tree) + x.after, rest);
    Assoc(TreeText(x.tree), x.after, rest);
  }

  lemma SlotSkips(x: Slot, rest: string)
    requires ValidSlot(x)
    ensures SkipWs(SlotText(x) + rest) == TreeText(x.tree) + (x.after + rest)
    ensures StartsValue(SkipWs(SlotText(x) + rest))
    ensures Delimits(rest) ==> Closes(x.after + rest) && SkipWs(x.after + rest) == rest
  {
    SlotShape(x, rest);
    TreeStarts(x.tree, x.after + rest);
    SkipsTo(x.before, TreeText(x.tree) + (x.after + rest));
    if Delimits(rest) {
      BlankCloses(x.after, rest);
      SkipsTo(x.after, rest);
    }
  }

  // ---------------------------------------------------------------- arrays

  lemma ItemCase(s: string, depth: nat, acc: seq<Json>, v: Json, t: string, u: string)
    requires Value(SkipWs(s), depth + 1) == Some((v, t)) && u == SkipWs(t) && u != [] && (u[0] == ',' || u[0] == ']')
    ensures Items(s, depth, acc) ==
            if u[0] == ',' then Items(u[1..], depth, acc + [v]) else Some((JArr(acc + [v]), u[1..]))
  {
  }

  function AfterSlot(xs: seq<Slot>, rest: string): string
    requires xs != []
  {
    if |xs| == 1 then "]" + rest else "," + (SlotsText(xs[1..]) + ("]" + rest))
  }

  lemma SlotsSplit(xs: seq<Slot>, rest: string)
    requires xs != []
    ensures SlotsText(xs) + ("]" + rest) == SlotText(xs[0]) + AfterSlot(xs, rest)
    ensures Delimits(AfterSlot(xs, rest))
    ensures |xs| == 1 ==> AfterSlot(xs, rest)[0] == ']' && AfterSlot(xs, rest)[1..] == rest
    ensures |xs| > 1 ==> AfterSlot(xs, rest)[0] == ',' && AfterSlot(xs, rest)[1..] == SlotsText(xs[1..]) + ("]" + rest)
  {
    if |xs| == 1 {
      assert SlotText(xs[0]) + [] == SlotText(xs[0]);
    } else {
      Assoc(SlotText(xs[0]), "," + SlotsText(xs[1..]), "]" + rest);
      Assoc(",", SlotsText(xs[1..]), "]" + rest);
    }
  }

  lemma SlotsStep(xs: seq<Slot>, acc: seq<Json>)
    requires xs != []
    ensures acc + SlotsMeaning(xs) == acc + [SlotMeaning(xs[0])] + SlotsMeaning(xs[1..])
    ensures |xs| == 1 ==> acc + SlotsMeaning(xs) == acc + [SlotMeaning(xs[0])]
  {
    Assoc(acc, [SlotMeaning(xs[0])], SlotsMeaning(xs[1..]));
    assert |xs| == 1 ==> SlotsMeaning(xs[1..]) == [];
  }

  lemma SlotReads(x: Slot, rest: string, depth: nat)
    requires ValidSlot(x) && Closes(x.after + rest) && depth + SlotDepth(x) <= MAX_DEPTH
    ensures Value(TreeText(x.tree) + (x.after + rest), depth) == Some((SlotMeaning(x), x.after + rest))
    decreases x, 1
  {
    TreeReads(x.tree, x.after + rest, depth);
  }

  lemma {:induction false} SlotsRead(xs: seq<Slot>, rest: string, depth: nat, acc: seq<Json>)
    requires xs != [] && ValidSlots(xs) && depth + 1 + SlotsDepth(xs) <= MAX_DEPTH
    ensures Items(SlotsText(xs) + ("]" + rest), depth, acc) == Some((JArr(acc + SlotsMeaning(xs)), rest))
    decreases xs, 2
  {
    var x, t := xs[0], AfterSlot(xs, rest);
    SlotsSplit(xs, rest);
    SlotSkips(x, t);
    SlotReads(x, t, depth + 1);
    ItemCase(SlotText(x) + t, depth, acc, SlotMeaning(x), x.after + t, t);
    SlotsStep(xs, acc);
    if |xs| > 1 {
      SlotsRead(xs[1..], rest, depth, acc + [SlotMeaning(x)]);
    }
  }

  lemma ItemsSkip(s: string, depth: nat, acc: seq<Json>)
    ensures Items(SkipWs(s), depth, acc) == Items(s, depth, acc)
  {
    SkipTwice(s);
  }

  lemma ArrReads(xs: seq<Slot>, rest: string, depth: nat)
    requires xs != [] && ValidSlots(xs) && depth + 1 + SlotsDepth(xs) <= MAX_DEPTH
    ensures Value(TreeText(Arr(xs)) + rest, depth) == Some((JArr(SlotsMeaning(xs)), rest))
    decreases xs, 3
  {
    var body := SlotsText(xs) + ("]" + rest);
    Wrapped("[", SlotsText(xs), "]", rest);
    SlotsSplit(xs, rest);
    SlotSkips(xs[0], AfterSlot(xs, rest));
    ArrayCase(TreeText(Arr(xs)) + rest, depth, SkipWs(body));
    ItemsSkip(body, depth, []);
    SlotsRead(xs, rest, depth, []);
    assert [] + SlotsMeaning(xs) == SlotsMeaning(xs);
  }

  lemma Wrapped(open: string, s: string, close: string, rest: string)
    requires |open| == 1
    ensures var w := open + (s + close) + rest; w != [] && w[0] == open[0] && w[1..] == s + (close + rest)
  {
    Assoc(open, s + close, rest);
    Assoc(s, close, rest);
  }

  lemma EmptyReads(t: Tree, rest: string, depth: nat)
    requires (t.EmptyArr? || t.EmptyObj?) && Valid(t) && depth <= MAX_DEPTH
    ensures Value(TreeText(t) + rest, depth) == Some((Meaning(t), rest))
  {
    var close := if t.EmptyArr? then "]" else "}";
    var s := TreeText(t) + rest;
    Wrapped(if t.EmptyArr? then "[" else "{", t.blank, close, rest);
    SkipsTo(t.blank, close + rest);
    assert (close + rest)[1..] == rest;
    if t.EmptyArr? {
      ArrayCase(s, depth, close + rest);
    } else {
      ObjectCase(s, depth, close + rest);
    }
  }

  // ---------------------------------------------------------------- objects

  lemma KeyCase(s: string, t: string, k: string, u: string, w: string)
    requires t == SkipWs(s) && t != [] && t[0] == '"' && StringRest(t[1..], []) == Some((k, u))
    requires w == SkipWs(u) && w != [] && w[0] == ':'
    ensures Key(s) == Some((k, w[1..]))
  {
  }

  lemma KeyShape(e: Entry, rest: string)
    ensures KeyText(e) + rest == e.before + (QuotedText(e.key) + (e.after + (":" + rest)))
  {
    Assoc(e.before, QuotedText(e.key) + (e.after + ":"), rest);
    Assoc(QuotedText(e.key), e.after + ":", rest);
    Assoc(e.after, ":", rest);
  }

  lemma KeyReads(e: Entry, rest: string)
    requires Blank(e.before) && Blank(e.after)
    ensures Key(KeyText(e) + rest) == Some((PiecesMeaning(e.key), rest))
    ensures StartsValue(SkipWs(KeyText(e) + rest))
  {
    var u := e.after + (":" + rest);
    var t := QuotedText(e.key) + u;
    KeyShape(e, rest);
    QuotedReads(e.key, u);
    SkipsTo(e.before, t);
    SkipsTo(e.after, ":" + rest);
    KeyCase(KeyText(e) + rest, t, PiecesMeaning(e.key), u, ":" + rest);
    assert (":" + rest)[1..] == rest;
  }

  lemma MemberCase(s: string, depth: nat, acc: seq<(string, Json)>, k: string, a: string, v: Json, t: string, u: string)
    requires Key(s) == Some((k, a)) && Value(SkipWs(a), depth + 1) == Some((v, t))
    requires u == SkipWs(t) && u != [] && (u[0] == ',' || u[0] == '}')
    ensures Members(s, depth, acc) ==
            if u[0] == ',' then Members(u[1..], depth, acc + [(k, v)]) else Some((JObj(acc + [(k, v)]), u[1..]))
  {
  }

  function AfterEntry(es: seq<Entry>, rest: string): string
    requires es != []
  {
    if |es| == 1 then "}" + rest else "," + (EntriesText(es[1..]) + ("}" + rest))
  }

  lemma EntriesSplit(es: seq<Entry>, rest: string)
    requires es != []
    ensures EntriesText(es) + ("}" + rest) == KeyText(es[0]) + (SlotText(es[0].slot) + AfterEntry(es, rest))
    ensures Delimits(AfterEntry(es, rest))
    ensures |es| == 1 ==> AfterEntry(es, rest)[0] == '}' && AfterEntry(es, rest)[1..] == rest
    ensures |es| > 1 ==> AfterEntry(es, rest)[0] == ',' && AfterEntry(es, rest)[1..] == EntriesText(es[1..]) + ("}" + rest)
  {
    if |es| == 1 {
      assert EntryText(es[0]) + [] == EntryText(es[0]);
    } else {
      Assoc(EntryText(es[0]), "," + EntriesText(es[1..]), "}" + rest);
      Assoc(",", EntriesText(es[1..]), "}" + rest);
    }
    Assoc(KeyText(es[0]), SlotText(es[0].slot), AfterEntry(es, rest));
  }

  lemma EntriesStep(es: seq<Entry>, acc: seq<(string, Json)>)
    requires es != []
    ensures acc + EntriesMeaning(es) == acc + [EntryMeaning(es[0])] + EntriesMeaning(es[1..])
    ensures |es| == 1 ==> acc + EntriesMeaning(es) == acc + [EntryMeaning(es[0])]
  {
    Assoc(acc, [EntryMeaning(es[0])], EntriesMeaning(es[1..]));
    assert |es| == 1 ==> EntriesMeaning(es[1..]) == [];
  }

  lemma EntryReads(e: Entry, t: string, depth: nat)
    requires ValidEntry(e) && Delimits(t) && depth + EntryDepth(e) <= MAX_DEPTH
    ensures Value(SkipWs(SlotText(e.slot) + t), depth) == Some((SlotMeaning(e.slot), e.slot.after + t))
    ensures SkipWs(e.slot.after + t) == t
    decreases e, 2
  {
    SlotSkips(e.slot, t);
    SlotReads(e.slot, t, depth);
  }

  lemma {:induction false} EntriesRead(es: seq<Entry>, rest: string, depth: nat, acc: seq<(string, Json)>)
    requires es != [] && ValidEntries(es) && depth + 1 + EntriesDepth(es) <= MAX_DEPTH
    ensures Members(EntriesText(es) + ("}" + rest), depth, acc) == Some((JObj(acc + EntriesMeaning(es)), rest))
    decreases es, 3
  {
    var e, t := es[0], AfterEntry(es, rest);
    var a := SlotText(e.slot) + t;
    EntriesSplit(es, rest);
    KeyReads(e, a);
    EntryReads(e, t, depth + 1);
    MemberCase(KeyText(e) + a, depth, acc, PiecesMeaning(e.key), a, SlotMeaning(e.slot), e.slot.after + t, t);
    EntriesStep(es, acc);
    if |es| > 1 {
      EntriesRead(es[1..], rest, depth, acc + [EntryMeaning(e)]);
    }
  }

  lemma MembersSkip(s: string, depth: nat, acc: seq<(string, Json)>)
    ensures Members(SkipWs(s), depth, acc) == Members(s, depth, acc)
  {
    SkipTwice(s);
    assert Key(SkipWs(s)) == Key(s);
  }

  lemma EntriesStart(es: seq<Entry>, rest: string)
    requires es != [] && ValidEntries(es)
    ensures StartsValue(SkipWs(EntriesText(es) + ("}" + rest)))
  {
    EntriesSplit(es, rest);
    KeyReads(es[0], SlotText(es[0].slot) + AfterEntry(es, rest));
  }

  lemma ObjReads(es: seq<Entry>, rest: string, depth: nat)
    requires es != [] && ValidEntries(es) && depth + 1 + EntriesDepth(es) <= MAX_DEPTH
    ensures Value(TreeText(Obj(es)) + rest, depth) == Some((JObj(EntriesMeaning(es)), rest))
    decreases es, 4
  {
    var body := EntriesText(es) + ("}" + rest);
    Wrapped("{", EntriesText(es), "}", rest);
    EntriesStart(es, rest);
    ObjectCase(TreeText(Obj(es)) + rest, depth, SkipWs(body));
    MembersSkip(body, depth, []);
    EntriesRead(es, rest, depth, []);
    assert [] + EntriesMeaning(es) == EntriesMeaning(es);
  }

  // ---------------------------------------------------------------- any tree

  lemma {:induction false} TreeReads(t: Tree, rest: string, depth: nat)
    requires Valid(t) && Closes(rest) && depth + Depth(t) <= MAX_DEPTH
    ensures Value(TreeText(t) + rest, depth) == Some((Meaning(t), rest))
    decreases t, 0
  {
    match t
    case NumTree(n) => NumReads(n, rest, depth);
    case StrTree(ps) => StrReads(ps, rest, depth);
    case Arr(xs) => ArrReads(xs, rest, depth);
    case Obj(es) => ObjReads(es, rest, depth);
    case EmptyArr(_) => EmptyReads(t, rest, depth);
    case EmptyObj(_) => EmptyReads(t, rest, depth);
    case _ => WordReads(TreeText(t), Meaning(t), rest, depth);
  }

  /** A document is a value with blanks around it. */
  lemma DocumentReads(x: Slot)
    requires ValidSlot(x) && SlotDepth(x) <= MAX_DEPTH
    ensures Parsed(SlotText(x)) == Some(SlotMeaning(x))
  {
    assert SlotText(x) + [] == SlotText(x) && x.after + [] == x.after;
    SlotSkips(x, []);
    BlankCloses(x.after, []);
    SlotReads(x, [], 0);
    SkipsTo(x.after, []);
  }
}
