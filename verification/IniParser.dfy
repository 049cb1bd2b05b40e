/** The configuration parser: lines into a 200 byte buffer, each taken apart in place, handler calls,
    and the number of the first line in error. */
module IniParser {
  import opened IniText

  const MAX_LINE := 200
  const MAX_SECTION := 50
  const MAX_NAME := 50
  const BOM := ['\U{EF}', '\U{BB}', '\U{BF}']

  datatype Call = Call(section: string, name: string, value: string)

  /** What the handler returns for a call, given the calls it has had before. */
  type Handler = (seq<Call>, Call) -> int

  /** What a line says, given the name a continuation line would continue. */
  datatype Meaning =
    | Blank
    | Heading(section: string)
    | Continued(value: string)
    | Setting(name: string, value: string)
    | Malformed

  /** How a line is understood: the name to continue, the line, and whether it is the first. The
      loop over the lines is the same for each of the syntaxes conf.h can select. */
  type Syntax = (string, string, bool) -> Meaning

  // ---------------------------------------------------------------------------------------------
  // Reading lines
  // ---------------------------------------------------------------------------------------------

  /** How much of a text one read takes. */
  function PieceLength(text: string, max: nat): (n: nat)
    ensures n <= |text| && n <= max && (text != "" && max > 0 ==> n > 0)
    ensures forall k :: 0 <= k < n - 1 ==> text[k] != '\n'
    ensures n == max || n == |text| || text[n - 1] == '\n'
  {
    if text == "" || max == 0 then 0
    else if text[0] == '\n' then 1
    else 1 + PieceLength(text[1..], max - 1)
  }

  function Pieces(text: string): seq<string> {
    if text == "" then []
    else
      var n := PieceLength(text, MAX_LINE - 1);
      [text[..n]] + Pieces(text[n..])
  }

  function Joined(pieces: seq<string>): string {
    if pieces == [] then "" else pieces[0] + Joined(pieces[1..])
  }

  /** A line the buffer takes in one read; only the last one may lack its newline. */
  predicate IsPiece(piece: string, last: bool) {
    && 0 < |piece| <= MAX_LINE - 1
    && '\n' !in piece[..|piece| - 1]
    && (piece[|piece| - 1] == '\n' || |piece| == MAX_LINE - 1 || last)
  }

  predicate ArePieces(pieces: seq<string>) {
    forall k :: 0 <= k < |pieces| ==> IsPiece(pieces[k], k == |pieces| - 1)
  }

  lemma PieceLengthIs(text: string, n: nat, max: nat)
    requires 0 < n <= |text| && n <= max && (forall k :: 0 <= k < n - 1 ==> text[k] != '\n')
    requires n == max || n == |text| || text[n - 1] == '\n'
    ensures PieceLength(text, max) == n
  {
    var m := PieceLength(text, max);
    assert m == n;
  }

  /** Line splitting: the pieces of a text make up the text, and no other split into lines that fill
      the buffer or end in a newline does. */
  lemma {:induction false} PiecesSplit(text: string, pieces: seq<string>)
    ensures ArePieces(pieces) && Joined(pieces) == text <==> pieces == Pieces(text)
    decreases |text|, |pieces|
  {
    if text == "" {
      if pieces != [] && ArePieces(pieces) { assert IsPiece(pieces[0], 0 == |pieces| - 1); }
    } else {
      var n := PieceLength(text, MAX_LINE - 1);
      PiecesSplit(text[n..], Pieces(text[n..]));
      FirstPiece(text);
      if pieces != [] && ArePieces(pieces) && Joined(pieces) == text {
        OnlyFirstPiece(pieces);
        PiecesSplit(text[n..], pieces[1..]);
      }
    }
  }

  lemma OnePieceMore(piece: string, rest: seq<string>)
    requires IsPiece(piece, rest == []) && ArePieces(rest)
    ensures ArePieces([piece] + rest) && Joined([piece] + rest) == piece + Joined(rest)
  {
    var all := [piece] + rest;
    assert all[1..] == rest;
    forall k | 0 <= k < |all| ensures IsPiece(all[k], k == |all| - 1) {
      if k > 0 { assert IsPiece(rest[k - 1], k - 1 == |rest| - 1); }
    }
  }

  lemma FirstPiece(text: string)
    requires text != "" && var rest := text[PieceLength(text, MAX_LINE - 1)..];
             ArePieces(Pieces(rest)) && Joined(Pieces(rest)) == rest
    ensures ArePieces(Pieces(text)) && Joined(Pieces(text)) == text
  {
    var n := PieceLength(text, MAX_LINE - 1);
    assert text[..n] + text[n..] == text;
    OnePieceMore(text[..n], Pieces(text[n..]));
  }

  lemma OnlyFirstPiece(pieces: seq<string>)
    requires pieces != [] && ArePieces(pieces)
    ensures var text := Joined(pieces);
            text != "" && PieceLength(text, MAX_LINE - 1) == |pieces[0]|
            && text[..|pieces[0]|] == pieces[0] && text[|pieces[0]|..] == Joined(pieces[1..]) && ArePieces(pieces[1..])
  {
    var text := Joined(pieces);
    var n := |pieces[0]|;
    assert IsPiece(pieces[0], 0 == |pieces| - 1);
    forall k | 0 <= k < n - 1 ensures text[k] != '\n' {
      assert pieces[0][..n - 1][k] == text[k];
    }
    PieceLengthIs(text, n, MAX_LINE - 1);
    forall k | 0 <= k < |pieces[1..]| ensures IsPiece(pieces[1..][k], k == |pieces[1..]| - 1) {
      assert IsPiece(pieces[k + 1], k + 1 == |pieces| - 1);
    }
  }

  // ---------------------------------------------------------------------------------------------
  // One line
  // ---------------------------------------------------------------------------------------------

  function SettingOf(start: string): Meaning {
    var end := Find(start, "=:");
    if end < |start| && start[end] in "=:" then
      var rest := start[end + 1..];
      Setting(Stripped(start[..end]), Trim(rest[..Find(rest, "")]))
    else
      Malformed
  }

  function HeadingOf(rest: string): Meaning {
    var end := Find(rest, "]");
    if end < |rest| && rest[end] == ']' then Heading(Truncated(rest[..end], MAX_SECTION - 1)) else Malformed
  }

  function SkipBom(line: string, first: bool): (n: nat)
    ensures n <= |line|
  {
    if first && BOM <= line then 3 else 0
  }

  /** A line's own text, without the whitespace around it, and whether anything came before it. */
  datatype Start = Start(text: string, indented: bool)

  function StartOf(line: string, first: bool): Start {
    var skipped := SkipBom(line, first);
    var text := Stripped(line[skipped..]);
    Start(text[Blanks(text)..], skipped + Blanks(text) > 0)
  }

  function MeaningAt(prevName: string, start: Start): Meaning {
    if start.text == "" || start.text[0] == ';' || start.text[0] == '#' then Blank
    else if prevName != "" && start.indented then Continued(start.text)
    else if start.text[0] == '[' then HeadingOf(start.text[1..])
    else SettingOf(start.text)
  }

  function Classify(prevName: string, line: string, first: bool): Meaning {
    MeaningAt(prevName, StartOf(line, first))
  }

  // ---------------------------------------------------------------------------------------------
  // All lines
  // ---------------------------------------------------------------------------------------------

  datatype State = State(section: string, prevName: string, lineno: nat, error: nat, calls: seq<Call>)

  const INIT := State("", "", 0, 0, [])

  /** The call a line makes, if any. */
  function CallOf(st: State, meaning: Meaning): seq<Call> {
    match meaning
    case Continued(value) => [Call(st.section, st.prevName, value)]
    case Setting(name, value) => [Call(st.section, name, value)]
    case _ => []
  }

  /** A line that cannot be understood, or whose call the handler rejects. */
  predicate Rejects(st: State, meaning: Meaning, handler: Handler) {
    meaning.Malformed? || (CallOf(st, meaning) != [] && handler(st.calls, CallOf(st, meaning)[0]) == 0)
  }

  function NameAfter(prevName: string, meaning: Meaning): string {
    match meaning
    case Heading(_) => ""
    case Setting(name, _) => Truncated(name, MAX_NAME - 1)
    case _ => prevName
  }

  function Act(st: State, meaning: Meaning, handler: Handler): State {
    State(if meaning.Heading? then meaning.section else st.section,
          NameAfter(st.prevName, meaning),
          st.lineno,
          if st.error == 0 && Rejects(st, meaning, handler) then st.lineno else st.error,
          st.calls + CallOf(st, meaning))
  }

  function ParseLine(st: State, line: string, syntax: Syntax, handler: Handler): State {
    Act(st.(lineno := st.lineno + 1), syntax(st.prevName, line, st.lineno == 0), handler)
  }

  function ParseLines(lines: seq<string>, syntax: Syntax, handler: Handler): State {
    if lines == [] then INIT
    else
      var done, line := lines[..|lines| - 1], lines[|lines| - 1];
      ParseLine(ParseLines(done, syntax, handler), line, syntax, handler)
  }

  function ParseString(text: string, handler: Handler): State {
    ParseLines(Pieces(text), Classify, handler)
  }

  // ---------------------------------------------------------------------------------------------
  // What is called, and the error returned
  // ---------------------------------------------------------------------------------------------

  function MeaningAfter(done: seq<string>, line: string, syntax: Syntax, handler: Handler): Meaning {
    syntax(ParseLines(done, syntax, handler).prevName, line, done == [])
  }

  /** After these lines, this one cannot be understood, or the handler rejects its call. */
  predicate Rejected(done: seq<string>, line: string, syntax: Syntax, handler: Handler) {
    Rejects(ParseLines(done, syntax, handler), MeaningAfter(done, line, syntax, handler), handler)
  }

  lemma {:induction false} LinesCounted(lines: seq<string>, syntax: Syntax, handler: Handler)
    ensures ParseLines(lines, syntax, handler).lineno == |lines|
  {
    if lines != [] { LinesCounted(lines[..|lines| - 1], syntax, handler); }
  }

  lemma NextLine(done: seq<string>, line: string, syntax: Syntax, handler: Handler)
    ensures var st := ParseLines(done, syntax, handler);
            st.lineno == |done| && ParseLines(done + [line], syntax, handler)
              == Act(st.(lineno := |done| + 1), MeaningAfter(done, line, syntax, handler), handler)
  {
    assert (done + [line])[..|done|] == done;
    LinesCounted(done, syntax, handler);
  }

  /** What one more line adds. */
  lemma OneMoreLine(done: seq<string>, line: string, syntax: Syntax, handler: Handler)
    ensures var before := ParseLines(done, syntax, handler);
            var after := ParseLines(done + [line], syntax, handler);
            after.calls == before.calls + CallOf(before, MeaningAfter(done, line, syntax, handler))
            && after.error ==
               if before.error == 0 && Rejected(done, line, syntax, handler) then |done| + 1 else before.error
  {
    NextLine(done, line, syntax, handler);
  }

  /** The parser has returned `error` for some lines: the number of the first one rejected, or 0. */
  ghost predicate IsFirstRejected(error: nat, lines: seq<string>, syntax: Syntax, handler: Handler) {
    error <= |lines|
    && (error > 0 ==> Rejected(lines[..error - 1], lines[error - 1], syntax, handler))
    && forall k :: 0 <= k < (if error > 0 then error - 1 else |lines|) ==>
         !Rejected(lines[..k], lines[k], syntax, handler)
  }

  lemma FirstRejectedLater(error: nat, done: seq<string>, line: string, syntax: Syntax, handler: Handler)
    requires IsFirstRejected(error, done, syntax, handler)
    ensures IsFirstRejected(if error == 0 && Rejected(done, line, syntax, handler) then |done| + 1 else error,
                            done + [line], syntax, handler)
  {
    var lines := done + [line];
    assert lines[..|done|] == done && lines[|done|] == line;
    assert forall k :: 0 <= k < |done| ==> lines[..k] == done[..k] && lines[k] == done[k];
  }

  /** First error: the parser returns the number of the first line it rejects, 0 when it rejects none. */
  lemma {:induction false} FirstError(lines: seq<string>, syntax: Syntax, handler: Handler)
    ensures IsFirstRejected(ParseLines(lines, syntax, handler).error, lines, syntax, handler)
  {
    if lines != [] {
      var done, line := lines[..|lines| - 1], lines[|lines| - 1];
      FirstError(done, syntax, handler);
      assert done + [line] == lines;
      OneMoreLine(done, line, syntax, handler);
      FirstRejectedLater(ParseLines(done, syntax, handler).error, done, line, syntax, handler);
    }
  }

  lemma ActIgnoresErrors(st: State, error: nat, meaning: Meaning, handler: Handler, other: Handler)
    ensures Act(st, meaning, handler).(error := 0) == Act(st.(error := error), meaning, other).(error := 0)
  {
  }

  /** An error stops nothing: every line is acted on as if the handler had accepted all before it. */
  lemma {:induction false} ErrorsChangeNothing(lines: seq<string>, syntax: Syntax, handler: Handler, other: Handler)
    ensures ParseLines(lines, syntax, handler).(error := 0) == ParseLines(lines, syntax, other).(error := 0)
  {
    if lines != [] {
      var done, line := lines[..|lines| - 1], lines[|lines| - 1];
      ErrorsChangeNothing(done, syntax, handler, other);
      var st, st' := ParseLines(done, syntax, handler), ParseLines(done, syntax, other);
      assert st' == st.(error := st'.error) && done + [line] == lines;
      NextLine(done, line, syntax, handler);
      NextLine(done, line, syntax, other);
      ActIgnoresErrors(st.(lineno := |lines|), st'.error, MeaningAfter(done, line, syntax, handler), handler, other);
    }
  }

  /** Every call comes from one line, in line order. */
  lemma {:induction false} CallsInOrder(lines: seq<string>, syntax: Syntax, handler: Handler, k: nat)
    requires k < |lines|
    ensures var before := ParseLines(lines[..k], syntax, handler);
            before.calls + CallOf(before, MeaningAfter(lines[..k], lines[k], syntax, handler))
              <= ParseLines(lines, syntax, handler).calls
    decreases |lines|
  {
    var done, line := lines[..|lines| - 1], lines[|lines| - 1];
    assert done + [line] == lines;
    OneMoreLine(done, line, syntax, handler);
    if k < |done| {
      CallsInOrder(done, syntax, handler, k);
      assert done[..k] == lines[..k];
    }
  }
}
