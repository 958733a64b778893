/**
  JSON texts as trees with every blank, escape and digit in them (section 2 of RFC 8259): what each
  tree looks like and what it means. The parser is held against this in JsonAccepted.
 */
module JsonGrammar {
  import opened RaftTypes
  import opened Json
  import opened JsonNumbers
  import opened JsonStrings

  datatype Tree =
    | NullTree
    | BoolTree(flag: bool)
    | NumTree(numeral: Numeral)
    | StrTree(pieces: seq<Good>)
    | EmptyArr(blank: string)
    | Arr(slots: seq<Slot>)
    | EmptyObj(blank: string)
    | Obj(entries: seq<Entry>)

  /** A value with the blanks around it. */
  datatype Slot = Slot(before: string, tree: Tree, after: string)

  /** A key with the blanks around it, and its value. */
  datatype Entry = Entry(before: string, key: seq<Good>, after: string, slot: Slot)

  predicate Blank(s: string) {
    forall i | 0 <= i < |s| :: IsWs(s[i])
  }

  // ---------------------------------------------------------------- form

  predicate Valid(t: Tree)
    decreases t, 0
  {
    match t
    case NumTree(n) => ValidNumeral(n)
    case EmptyArr(b) => Blank(b)
    case EmptyObj(b) => Blank(b)
    case Arr(xs) => xs != [] && ValidSlots(xs)
    case Obj(es) => es != [] && ValidEntries(es)
    case _ => true
  }

  predicate ValidSlot(x: Slot)
    decreases x, 1
  {
    Blank(x.before) && Valid(x.tree) && Blank(x.after)
  }

  predicate ValidSlots(xs: seq<Slot>)
    decreases xs, 2
  {
    xs == [] || (ValidSlot(xs[0]) && ValidSlots(xs[1..]))
  }

  predicate ValidEntry(e: Entry)
    decreases e, 2
  {
    Blank(e.before) && Blank(e.after) && ValidSlot(e.slot)
  }

  predicate ValidEntries(es: seq<Entry>)
    decreases es, 3
  {
    es == [] || (ValidEntry(es[0]) && ValidEntries(es[1..]))
  }

  // ---------------------------------------------------------------- text

  function QuotedText(ps: seq<Good>): string {
    "\"" + (PiecesText(ps) + "\"")
  }

  function TreeText(t: Tree): string
    decreases t, 0
  {
    match t
    case NullTree => "null"
    case BoolTree(b) => if b then "true" else "false"
    case NumTree(n) => NumeralText(n)
    case StrTree(ps) => QuotedText(ps)
    case EmptyArr(b) => "[" + (b + "]")
    case EmptyObj(b) => "{" + (b + "}")
    case Arr(xs) => "[" + (SlotsText(xs) + "]")
    case Obj(es) => "{" + (EntriesText(es) + "}")
  }

  function SlotText(x: Slot): string
    decreases x, 1
  {
    x.before + (TreeText(x.tree) + x.after)
  }

  function SlotsText(xs: seq<Slot>): string
    decreases xs, 2
  {
    if xs == [] then [] else SlotText(xs[0]) + (if |xs| == 1 then [] else "," + SlotsText(xs[1..]))
  }

  function KeyText(e: Entry): string {
    e.before + (QuotedText(e.key) + (e.after + ":"))
  }

  function EntryText(e: Entry): string
    decreases e, 2
  {
    KeyText(e) + SlotText(e.slot)
  }

  function EntriesText(es: seq<Entry>): string
    decreases es, 3
  {
    if es == [] then [] else EntryText(es[0]) + (if |es| == 1 then [] else "," + EntriesText(es[1..]))
  }

  // ---------------------------------------------------------------- meaning

  function Meaning(t: Tree): Json
    decreases t, 0
  {
    match t
    case NullTree => JNull
    case BoolTree(b) => JBool(b)
    case NumTree(n) => JNum(Denoted(n))
    case StrTree(ps) => JStr(PiecesMeaning(ps))
    case EmptyArr(_) => JArr([])
    case EmptyObj(_) => JObj([])
    case Arr(xs) => JArr(SlotsMeaning(xs))
    case Obj(es) => JObj(EntriesMeaning(es))
  }

  function SlotMeaning(x: Slot): Json
    decreases x, 1
  {
    Meaning(x.tree)
  }

  function SlotsMeaning(xs: seq<Slot>): seq<Json>
    decreases xs, 2
  {
    if xs == [] then [] else [SlotMeaning(xs[0])] + SlotsMeaning(xs[1..])
  }

  function EntryMeaning(e: Entry): (string, Json)
    decreases e, 2
  {
    (PiecesMeaning(e.key), SlotMeaning(e.slot))
  }

  /** Members in order; a repeated key stays. */
  function EntriesMeaning(es: seq<Entry>): seq<(string, Json)>
    decreases es, 3
  {
    if es == [] then [] else [EntryMeaning(es[0])] + EntriesMeaning(es[1..])
  }

  // ---------------------------------------------------------------- depth

  function Larger(a: nat, b: nat): nat {
    if a >= b then a else b
  }

  function Depth(t: Tree): nat
    decreases t, 0
  {
    match t
    case Arr(xs) => 1 + SlotsDepth(xs)
    case Obj(es) => 1 + EntriesDepth(es)
    case _ => 0
  }

  function SlotDepth(x: Slot): nat
    decreases x, 1
  {
    Depth(x.tree)
  }

  function SlotsDepth(xs: seq<Slot>): nat
    decreases xs, 2
  {
    if xs == [] then 0 else Larger(SlotDepth(xs[0]), SlotsDepth(xs[1..]))
  }

  function EntryDepth(e: Entry): nat
    decreases e, 2
  {
    SlotDepth(e.slot)
  }

  function EntriesDepth(es: seq<Entry>): nat
    decreases es, 3
  {
    if es == [] then 0 else Larger(EntryDepth(es[0]), EntriesDepth(es[1..]))
  }

  // ---------------------------------------------------------------- blanks

  lemma {:induction false} SkipsBlank(b: string, s: string)
    requires Blank(b)
    ensures SkipWs(b + s) == SkipWs(s)
  {
    if b == [] {
      assert b + s == s;
    } else {
      assert (b + s)[1..] == b[1..] + s;
      SkipsBlank(b[1..], s);
    }
  }

  lemma SkipsTo(b: string, s: string)
    requires Blank(b) && (s == [] || !IsWs(s[0]))
    ensures SkipWs(b + s) == s
  {
    SkipsBlank(b, s);
  }

  lemma {:induction false} SkippedIsBlank(s: string) returns (b: string)
    ensures Blank(b) && s == b + SkipWs(s)
    ensures SkipWs(s) == [] || !IsWs(SkipWs(s)[0])
  {
    if s != [] && IsWs(s[0]) {
      b := SkippedIsBlank(s[1..]);
      b := [s[0]] + b;
    } else {
      b := [];
      assert s == [] + s;
    }
  }

  lemma SkipTwice(s: string)
    ensures SkipWs(SkipWs(s)) == SkipWs(s)
  {
    var b := SkippedIsBlank(s);
  }

  lemma BlankJoins(a: string, b: string)
    requires Blank(a) && Blank(b)
    ensures Blank(a + b)
  {
  }
}
