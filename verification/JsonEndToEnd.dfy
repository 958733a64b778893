/** Writer and parser together. */
module JsonEndToEnd {
  import opened RaftTypes
  import opened Json
  import opened JsonRoundTrip
  import opened JsonWriters
  import opened JsonParsers

  /** Writing a tree and parsing the result gives it back, unless it is nested too deep to be accepted. */
  method WriteAndParse(v: Json) returns (r: Option<Json>)
    requires Exact(v)
    ensures r == if Height(v) <= MAX_DEPTH then Some(v) else None
  {
    var w := new JsonWriter();
    Emit(w, v);
    assert [] + [] + Text(v) == Text(v);
    var p := new Parser(w.out);
    r := p.ParseDocument();
    RoundTrip(v);
  }
}
