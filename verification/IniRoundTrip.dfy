/** Configurations written with any layout, and every text there can be, read back whole. */
module IniRoundTrip {
  import opened IniText
  import opened IniParser
  import opened IniGrammar

  function Lines(items: seq<Item>): (lines: seq<string>)
    ensures |lines| == |items|
  {
    if items == [] then [] else Lines(items[..|items| - 1]) + [Print(items[|items| - 1])]
  }

  lemma {:induction false} LineAt(items: seq<Item>, k: nat)
    requires k < |items|
    ensures Lines(items)[k] == Print(items[k])
  {
    if k < |items| - 1 { LineAt(items[..|items| - 1], k); }
  }

  function PrintAll(items: seq<Item>): string {
    Joined(Lines(items))
  }

  /** The section a setting after these items is in. */
  function SectionAt(items: seq<Item>): string {
    if items == [] then ""
    else if items[|items| - 1].Header? then items[|items| - 1].section
    else SectionAt(items[..|items| - 1])
  }

  /** The name a continuation after these items continues: the last one of the section, cut to the buffer. */
  function NameAt(items: seq<Item>): string {
    if items == [] then ""
    else
      var last := items[|items| - 1];
      if last.Header? then ""
      else if last.Entry? then Truncated(last.name, MAX_NAME - 1)
      else NameAt(items[..|items| - 1])
  }

  /** The triple an item adds. */
  function Adds(before: seq<Item>, item: Item): (calls: seq<Call>)
    ensures |calls| <= 1
  {
    if item.Entry? then [Call(SectionAt(before), item.name, item.value)]
    else if item.More? then [Call(SectionAt(before), NameAt(before), item.value)]
    else []
  }

  /** The triples a file holds. */
  function CallsOf(items: seq<Item>): seq<Call> {
    if items == [] then []
    else CallsOf(items[..|items| - 1]) + Adds(items[..|items| - 1], items[|items| - 1])
  }

  predicate Faulty(item: Item) {
    item.Junk? || item.Unclosed?
  }

  /** Item `k` is no setting at all, or its call is refused. */
  predicate Bad(items: seq<Item>, k: nat, handler: Handler)
    requires k < |items|
  {
    var calls := Adds(items[..k], items[k]);
    Faulty(items[k]) || (calls != [] && handler(CallsOf(items[..k]), calls[0]) == 0)
  }

  /** `error` is the number of the first item that is bad, or 0 when none is. */
  predicate IsFirstBad(error: nat, items: seq<Item>, handler: Handler) {
    error <= |items|
    && (error > 0 ==> Bad(items, error - 1, handler))
    && forall k :: 0 <= k < (if error > 0 then error - 1 else |items|) ==> !Bad(items, k, handler)
  }

  /** Every item can be written where it stands. */
  predicate AllWritten(items: seq<Item>) {
    forall k :: 0 <= k < |items| ==> Writes(items[k], NameAt(items[..k]), Print(items[k]), k == 0)
  }

  predicate WellFormed(items: seq<Item>) {
    ArePieces(Lines(items)) && AllWritten(items)
  }

  predicate Accepts(handler: Handler, calls: seq<Call>) {
    forall k :: 0 <= k < |calls| ==> handler(calls[..k], calls[k]) != 0
  }

  lemma PiecesOfPrinted(items: seq<Item>)
    requires ArePieces(Lines(items))
    ensures Pieces(PrintAll(items)) == Lines(items)
  {
    PiecesSplit(PrintAll(items), Lines(items));
  }

  // ---------------------------------------------------------------------------------------------
  // Reading items
  // ---------------------------------------------------------------------------------------------

  lemma BadBefore(items: seq<Item>, items': seq<Item>, k: nat, handler: Handler)
    requires items <= items' && k < |items|
    ensures Bad(items', k, handler) <==> Bad(items, k, handler)
  {
    assert items'[..k] == items[..k];
  }

  lemma FirstBadLater(error: nat, items: seq<Item>, items': seq<Item>, handler: Handler)
    requires IsFirstBad(error, items, handler) && items <= items' && |items'| == |items| + 1
    ensures IsFirstBad(if error == 0 && Bad(items', |items|, handler) then |items'| else error, items', handler)
  {
    forall k: nat | k < |items| ensures Bad(items', k, handler) <==> Bad(items, k, handler) {
      BadBefore(items, items', k, handler);
    }
  }

  lemma OneFirstBad(error: nat, error': nat, items: seq<Item>, handler: Handler)
    requires IsFirstBad(error, items, handler) && IsFirstBad(error', items, handler)
    ensures error == error'
  {
  }

  /** The parser has read these items and nothing else. */
  predicate HasRead(st: State, items: seq<Item>, handler: Handler) {
    st.section == SectionAt(items) && st.prevName == NameAt(items) && st.calls == CallsOf(items)
    && IsFirstBad(st.error, items, handler)
  }

  lemma ItemActs(before: seq<Item>, item: Item, items: seq<Item>, st: State, handler: Handler)
    requires HasRead(st, before, handler) && st.lineno == |before| && items == before + [item]
    ensures HasRead(Act(st.(lineno := |before| + 1), Intent(item), handler), items, handler)
  {
    assert items[..|before|] == before;
    assert CallOf(st, Intent(item)) == Adds(before, item);
    FirstBadLater(st.error, before, items, handler);
  }

  /** Each line is read as the item it was printed from. */
  ghost predicate ReadsAs(items: seq<Item>, syntax: Syntax) {
    items == [] || var before, item := items[..|items| - 1], items[|items| - 1];
      ReadsAs(before, syntax) && syntax(NameAt(before), Print(item), before == []) == Intent(item)
  }

  lemma LineParses(before: seq<Item>, item: Item, items: seq<Item>, syntax: Syntax, handler: Handler)
    requires HasRead(ParseLines(Lines(before), syntax, handler), before, handler)
    requires syntax(NameAt(before), Print(item), before == []) == Intent(item)
    requires items == before + [item]
    ensures HasRead(ParseLines(Lines(items), syntax, handler), items, handler)
  {
    var st := ParseLines(Lines(before), syntax, handler);
    NextLine(Lines(before), Print(item), syntax, handler);
    assert Lines(items) == Lines(before) + [Print(item)];
    ItemActs(before, item, items, st, handler);
  }

  lemma {:induction false} LinesParse(items: seq<Item>, syntax: Syntax, handler: Handler)
    requires ReadsAs(items, syntax)
    ensures HasRead(ParseLines(Lines(items), syntax, handler), items, handler)
  {
    if items != [] {
      var before, item := items[..|items| - 1], items[|items| - 1];
      LinesParse(before, syntax, handler);
      LineParses(before, item, items, syntax, handler);
    }
  }

  lemma WrittenBefore(items: seq<Item>)
    requires AllWritten(items) && items != []
    ensures var n := |items| - 1;
            AllWritten(items[..n]) && Writes(items[n], NameAt(items[..n]), Print(items[n]), n == 0)
  {
    var before := items[..|items| - 1];
    forall k | 0 <= k < |before| ensures Writes(before[k], NameAt(before[..k]), Print(before[k]), k == 0) {
      assert before[..k] == items[..k] && before[k] == items[k];
    }
  }

  lemma {:induction false} WrittenReads(items: seq<Item>)
    requires AllWritten(items)
    ensures ReadsAs(items, Classify)
  {
    if items != [] {
      var n := |items| - 1;
      WrittenBefore(items);
      WrittenReads(items[..n]);
      LineRoundTrip(items[n], NameAt(items[..n]), n == 0);
    }
  }

  /** Round trip: parsing the text of a well-formed configuration, whatever its layout, calls the handler
      with exactly its triples, in order, and returns the number of the first bad item. */
  lemma RoundTrip(items: seq<Item>, handler: Handler)
    requires WellFormed(items)
    ensures var st := ParseString(PrintAll(items), handler);
            st.calls == CallsOf(items) && IsFirstBad(st.error, items, handler)
  {
    PiecesOfPrinted(items);
    WrittenReads(items);
    LinesParse(items, Classify, handler);
  }

  // ---------------------------------------------------------------------------------------------
  // Every text
  // ---------------------------------------------------------------------------------------------

  lemma OneMoreWritten(before: seq<Item>, item: Item, line: string)
    requires AllWritten(before) && Writes(item, NameAt(before), line, before == [])
    ensures AllWritten(before + [item]) && Lines(before + [item]) == Lines(before) + [line]
  {
    var items := before + [item];
    assert items[..|before|] == before;
    forall k | 0 <= k < |items| ensures Writes(items[k], NameAt(items[..k]), Print(items[k]), k == 0) {
      if k < |before| { assert items[..k] == before[..k]; }
    }
  }

  lemma {:induction false} EveryLineWritten(lines: seq<string>) returns (items: seq<Item>)
    ensures AllWritten(items) && Lines(items) == lines
  {
    items := [];
    if lines != [] {
      var before, line := lines[..|lines| - 1], lines[|lines| - 1];
      assert before + [line] == lines;
      items := EveryLineWritten(before);
      var item := EveryLine(NameAt(items), line, items == []);
      OneMoreWritten(items, item, line);
      items := items + [item];
    }
  }

  /** Every text is the text of a well-formed configuration. */
  lemma EveryText(text: string) returns (items: seq<Item>)
    ensures WellFormed(items) && PrintAll(items) == text
  {
    items := EveryLineWritten(Pieces(text));
    PiecesSplit(text, Pieces(text));
  }

  /** What the parser does with a text is what the configurations the text can be written from say, and
      nothing else: their triples, and the number of their first bad item. */
  lemma ParserReadsText(text: string, handler: Handler, calls: seq<Call>, error: nat)
    ensures var st := ParseString(text, handler);
            st.calls == calls && st.error == error <==>
            exists items :: WellFormed(items) && PrintAll(items) == text && CallsOf(items) == calls
                            && IsFirstBad(error, items, handler)
  {
    var items := EveryText(text);
    RoundTrip(items, handler);
    forall other | WellFormed(other) && PrintAll(other) == text && CallsOf(other) == calls
                   && IsFirstBad(error, other, handler)
      ensures ParseString(text, handler).calls == calls && ParseString(text, handler).error == error
    {
      RoundTrip(other, handler);
      OneFirstBad(error, ParseString(text, handler).error, other, handler);
    }
  }

  // ---------------------------------------------------------------------------------------------
  // No error
  // ---------------------------------------------------------------------------------------------

  lemma AcceptsOneMore(handler: Handler, calls: seq<Call>, more: seq<Call>)
    requires |more| <= 1
    ensures Accepts(handler, calls + more) <==> Accepts(handler, calls) && (more == [] || handler(calls, more[0]) != 0)
  {
    var all := calls + more;
    assert forall k :: 0 <= k < |calls| ==> all[..k] == calls[..k] && all[k] == calls[k];
    assert all[..|calls|] == calls;
  }

  predicate NoneBad(items: seq<Item>, handler: Handler) {
    forall k :: 0 <= k < |items| ==> !Bad(items, k, handler)
  }

  lemma NoneBadOneMore(before: seq<Item>, items: seq<Item>, handler: Handler)
    requires before <= items && |items| == |before| + 1
    ensures NoneBad(items, handler) <==> NoneBad(before, handler) && !Bad(items, |before|, handler)
  {
    forall k: nat | k < |before| ensures Bad(items, k, handler) <==> Bad(before, k, handler) {
      BadBefore(before, items, k, handler);
    }
  }

  /** No item is bad exactly when each is a proper line and the handler accepts every triple. */
  lemma {:induction false} NoneBadWhen(items: seq<Item>, handler: Handler)
    ensures NoneBad(items, handler) <==>
            (forall k :: 0 <= k < |items| ==> !Faulty(items[k])) && Accepts(handler, CallsOf(items))
  {
    if items != [] {
      var n := |items| - 1;
      var before := items[..n];
      NoneBadWhen(before, handler);
      NoneBadOneMore(before, items, handler);
      AcceptsOneMore(handler, CallsOf(before), Adds(before, items[n]));
      assert (forall k :: 0 <= k < |items| ==> !Faulty(items[k])) <==>
             (forall k :: 0 <= k < |before| ==> !Faulty(before[k])) && !Faulty(items[n]);
    }
  }

  /** The parser returns 0 for the text of a configuration exactly when none of its lines is malformed and
      the handler accepts every triple. */
  lemma NoError(items: seq<Item>, handler: Handler)
    requires WellFormed(items)
    ensures ParseString(PrintAll(items), handler).error == 0 <==>
            (forall k :: 0 <= k < |items| ==> !Faulty(items[k])) && Accepts(handler, CallsOf(items))
  {
    RoundTrip(items, handler);
    NoneBadWhen(items, handler);
  }
}
