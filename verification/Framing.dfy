/** Items written one after the other and read back in a counted loop. */
module Framing {
  import opened Common
  import opened Results
  import opened Bytes

  function Concat(parts: seq<seq<Byte>>): seq<Byte> {
    if parts == [] then [] else Concat(parts[..|parts| - 1]) + parts[|parts| - 1]
  }

  /** Appends the parts to a buffer, in order. */
  method AppendAll(parts: seq<seq<Byte>>, out: seq<Byte>) returns (res: seq<Byte>)
    ensures res == out + Concat(parts)
  {
    res := out;
    for i := 0 to |parts|
      invariant res == out + Concat(parts[..i])
    {
      assert parts[..i + 1][..i] == parts[..i];
      Assoc(out, Concat(parts[..i]), parts[i]);
      res := res + parts[i];
    }
    assert parts[..|parts|] == parts;
  }

  /** `n` items from the front of `s`, after those in `acc`. */
  function Repeat<T>(get: seq<Byte> -> Result<(T, seq<Byte>)>, s: seq<Byte>, n: nat, acc: seq<T>)
    : Result<(seq<T>, seq<Byte>)>
    decreases n
  {
    if n == 0 then Ok((acc, s))
    else
      var r :- get(s);
      Repeat(get, r.1, n - 1, acc + [r.0])
  }

  method ReadAll<T>(get: seq<Byte> -> Result<(T, seq<Byte>)>, s: seq<Byte>, n: nat)
    returns (r: Result<(seq<T>, seq<Byte>)>)
    ensures r == Repeat(get, s, n, [])
  {
    var items, cursor := [], s;
    for i := 0 to n
      invariant Repeat(get, cursor, n - i, items) == Repeat(get, s, n, [])
    {
      var item := get(cursor);
      if item.Err? {
        return Err(item.error);
      }
      items := items + [item.value.0];
      cursor := item.value.1;
    }
    r := Ok((items, cursor));
  }

  lemma {:induction false} ConcatFront(parts: seq<seq<Byte>>)
    requires parts != []
    ensures Concat(parts) == parts[0] + Concat(parts[1..])
  {
    var n := |parts| - 1;
    if n > 0 {
      ConcatFront(parts[..n]);
      assert parts[..n][1..] == parts[1..][..n - 1];
      Assoc(parts[0], Concat(parts[1..][..n - 1]), parts[n]);
    }
  }

  /** Each part reads back as its item, whatever follows it. */
  ghost predicate ReadsBack<T(!new)>(get: seq<Byte> -> Result<(T, seq<Byte>)>, parts: seq<seq<Byte>>, items: seq<T>) {
    && |parts| == |items|
    && forall i, rest | 0 <= i < |parts| :: get(parts[i] + rest) == Ok((items[i], rest))
  }

  /** Then the whole reads back, and the cursor stops right after it. */
  lemma {:induction false} RepeatBack<T(!new)>(get: seq<Byte> -> Result<(T, seq<Byte>)>, parts: seq<seq<Byte>>,
                                               items: seq<T>, rest: seq<Byte>, acc: seq<T>)
    requires ReadsBack(get, parts, items)
    ensures Repeat(get, Concat(parts) + rest, |items|, acc) == Ok((acc + items, rest))
    decreases |items|
  {
    if items == [] {
      assert [] + rest == rest && acc + items == acc;
    } else {
      var t := Concat(parts[1..]);
      ConcatFront(parts);
      Assoc(parts[0], t, rest);
      assert get(parts[0] + (t + rest)) == Ok((items[0], t + rest));
      RepeatBack(get, parts[1..], items[1..], rest, acc + [items[0]]);
      assert acc + [items[0]] + items[1..] == acc + items;
    }
  }

  lemma {:induction false} ConcatLength(parts: seq<seq<Byte>>, i: nat)
    requires i < |parts|
    ensures |parts[i]| <= |Concat(parts)|
  {
    if i < |parts| - 1 {
      ConcatLength(parts[..|parts| - 1], i);
    }
  }

  /** Parts that are never empty are no more than the bytes they take. */
  lemma {:induction false} ConcatCount(parts: seq<seq<Byte>>)
    requires forall i | 0 <= i < |parts| :: |parts[i]| >= 1
    ensures |parts| <= |Concat(parts)|
  {
    if parts != [] {
      ConcatCount(parts[..|parts| - 1]);
    }
  }
}
