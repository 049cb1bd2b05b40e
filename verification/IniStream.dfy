/** The parser's loop over its buffers, in place: the line, the section and the previous name. */
module IniStream {
  import opened IniText
  import opened IniParser

  /** Reads lines out of a string. */
  class StringReader {
    const text: string
    var pos: nat

    ghost predicate Valid()
      reads this
    {
      pos <= |text| && NUL !in text
    }

    constructor (text: string)
      requires NUL !in text
      ensures Valid() && this.text == text && pos == 0
    {
      this.text := text;
      pos := 0;
    }

    /** The next line, or as much of it as the buffer takes, with a terminator. */
    method Read(str: array<char>, num: nat) returns (more: bool)
      requires Valid() && num <= str.Length
      modifies this`pos, str
      ensures Valid() && more == (old(pos) < |text| && num >= 2)
      ensures !more ==> pos == old(pos) && str[..] == old(str[..])
      ensures more ==>
        pos == old(pos) + PieceLength(text[old(pos)..], num - 1) && Holds(str[..], 0, text[old(pos)..pos])
    {
      if pos == |text| || num < 2 { return false; }
      ghost var rest := text[pos..];
      var i, left := 0, num;
      while left > 1 && pos < |text|
        invariant i + left == num && left >= 1 && i <= |rest| && pos == old(pos) + i
        invariant forall k :: 0 <= k < i ==> rest[k] == str[k] && rest[k] != '\n'
        decreases left
      {
        var c := text[pos];
        assert c == rest[i];
        pos := pos + 1;
        str[i] := c;
        i := i + 1;
        if c == '\n' { break; }
        left := left - 1;
      }
      PieceLengthIs(rest, i, num - 1);
      str[i] := NUL;
      assert text[old(pos)..pos] == rest[..i];
      assert forall k :: 0 <= k < i ==> rest[k] in text;
      return true;
    }
  }

  /** Strip the line and skip to its first character. */
  method StartOfLine(line: array<char>, lineno: nat, ghost text: string) returns (start: nat)
    requires Holds(line[..], 0, text) && line.Length == MAX_LINE
    modifies line
    ensures Holds(line[..], start, StartOf(text, lineno == 1).text)
    ensures start > 0 <==> StartOf(text, lineno == 1).indented
  {
    start := 0;
    if lineno == 1 && line[0] == BOM[0] && line[1] == BOM[1] && line[2] == BOM[2] {
      start := 3;
    }
    StartsWithBom(line[..], text);
    ghost var rest := text[start..];
    HoldsSuffix(line[..], 0, text, start);
    Rstrip(line, start, rest);
    start := Lskip(line, start, Stripped(rest));
  }

  lemma StartsWithBom(b: seq<char>, text: string)
    requires Holds(b, 0, text) && |b| == MAX_LINE
    ensures BOM <= text <==> b[0] == BOM[0] && b[1] == BOM[1] && b[2] == BOM[2]
  {
    if |text| > 0 { assert text[0] == b[0]; }
    if |text| > 1 { assert text[1] == b[1]; }
    if |text| > 2 { assert text[2] == b[2]; }
  }

  /** A section line: the name up to the bracket becomes the section, and there is no name to continue. */
  method HeadingLine(line: array<char>, start: nat, section: array<char>, prevName: array<char>, ghost rest: string)
    returns (found: bool)
    requires Holds(line[..], start + 1, rest) && section.Length == MAX_SECTION && prevName.Length == MAX_NAME
    requires line != section && line != prevName && section != prevName
    modifies line, section, prevName
    ensures found ==>
      HeadingOf(rest).Heading? && Holds(section[..], 0, HeadingOf(rest).section) && Holds(prevName[..], 0, "")
    ensures !found ==>
      HeadingOf(rest) == Malformed && section[..] == old(section[..]) && prevName[..] == old(prevName[..])
  {
    var end := FindCharsOrComment(line, start + 1, "]", rest);
    if line[end] != ']' { return false; }
    Cut(line, start + 1, end - start - 1, rest);
    Strncpy0(section, line, start + 1, MAX_SECTION, rest[..end - start - 1]);
    prevName[0] := NUL;
    return true;
  }

  /** A name and a value: the line is cut at the delimiter, and the value at a comment. */
  method SettingLine(line: array<char>, start: nat, prevName: array<char>, ghost text: string)
    returns (found: bool, name: string, value: string)
    requires Holds(line[..], start, text) && prevName.Length == MAX_NAME && line != prevName
    modifies line, prevName
    ensures found ==> SettingOf(text) == Setting(name, value) && Holds(prevName[..], 0, Truncated(name, MAX_NAME - 1))
    ensures !found ==> SettingOf(text) == Malformed && prevName[..] == old(prevName[..])
  {
    name, value := "", "";
    var end := FindCharsOrComment(line, start, "=:", text);
    if line[end] != '=' && line[end] != ':' { return false, name, value; }
    var n := end - start;
    NameOf(line, start, n, text);
    var at := ValueOf(line, end + 1, start, Stripped(text[..n]), text[n + 1..]);
    name := StringAt(line, start, Stripped(text[..n]));
    Strncpy0(prevName, line, start, MAX_NAME, name);
    ghost var rest := text[n + 1..];
    value := StringAt(line, at, Trim(rest[..Find(rest, "")]));
    found := true;
  }

  /** Cut the name off at the delimiter and strip it. */
  method NameOf(line: array<char>, start: nat, n: nat, ghost text: string)
    requires Holds(line[..], start, text) && n < |text|
    modifies line
    ensures Holds(line[..], start, Stripped(text[..n])) && Holds(line[..], start + n + 1, text[n + 1..])
  {
    Cut(line, start, n, text);
    ghost var cut := line[..];
    Rstrip(line, start, text[..n]);
    HoldsStill(cut, line[..], start, start + n, start + n + 1, text[n + 1..]);
  }

  /** Cut the value at a comment and strip it, leaving the name before it alone. */
  method ValueOf(line: array<char>, p: nat, start: nat, ghost name: string, ghost rest: string) returns (at: nat)
    requires Holds(line[..], p, rest) && Holds(line[..], start, name) && start + |name| < p
    modifies line
    ensures Holds(line[..], start, name)
    ensures Holds(line[..], at, Trim(rest[..Find(rest, "")]))
  {
    ghost var before := line[..];
    ghost var cut := rest[..Find(rest, "")];
    var end := FindCharsOrComment(line, p, "", rest);
    if line[end] != NUL {
      Cut(line, p, end - p, rest);
      HoldsStill(before, line[..], end, end + 1, start, name);
    } else {
      assert cut == rest;
    }
    assert Holds(line[..], p, cut);
    at := Lskip(line, p, cut);
    ghost var mid := line[..];
    Rstrip(line, at, cut[Blanks(cut)..]);
    HoldsStill(mid, line[..], at, p + |cut|, start, name);
  }

  /** The buffers and counters hold the parser's state. */
  ghost predicate Keeps(section: array<char>, prevName: array<char>, lineno: nat, error: nat, calls: seq<Call>,
        st: State)
    reads section, prevName
  {
    && section.Length == MAX_SECTION && prevName.Length == MAX_NAME
    && Holds(section[..], 0, st.section) && Holds(prevName[..], 0, st.prevName)
    && lineno == st.lineno && error == st.error && calls == st.calls
  }

  /** Call the handler; a call it rejects is an error on this line, unless there is an earlier one. */
  method CallHandler(handler: Handler, call: Call, lineno: nat, error: nat, calls: seq<Call>)
    returns (error': nat, calls': seq<Call>)
    ensures error' == (if error == 0 && handler(calls, call) == 0 then lineno else error) && calls' == calls + [call]
  {
    var ok := handler(calls, call);
    calls' := calls + [call];
    error' := if ok == 0 && error == 0 then lineno else error;
  }

  /** A section line, or an error. */
  method ActOnHeading(line: array<char>, section: array<char>, prevName: array<char>, lineno: nat, error: nat,
        calls: seq<Call>, handler: Handler, start: nat, ghost rest: string, ghost st: State)
    returns (error': nat)
    requires line != section && line != prevName && section != prevName
    requires Holds(line[..], start + 1, rest) && Keeps(section, prevName, lineno, error, calls, st)
    modifies line, section, prevName
    ensures Keeps(section, prevName, lineno, error', calls, Act(st, HeadingOf(rest), handler))
  {
    var found := HeadingLine(line, start, section, prevName, rest);
    error' := if !found && error == 0 then lineno else error;
  }

  /** A name and a value for the handler, or an error. */
  method ActOnSetting(line: array<char>, section: array<char>, prevName: array<char>, lineno: nat, error: nat,
        calls: seq<Call>, handler: Handler, start: nat, ghost text: string, ghost st: State)
    returns (error': nat, calls': seq<Call>)
    requires line != section && line != prevName && section != prevName
    requires Holds(line[..], start, text) && Keeps(section, prevName, lineno, error, calls, st)
    modifies line, prevName
    ensures Keeps(section, prevName, lineno, error', calls', Act(st, SettingOf(text), handler))
  {
    error', calls' := error, calls;
    var found, name, value := SettingLine(line, start, prevName, text);
    if found {
      var sec := StringAt(section, 0, st.section);
      error', calls' := CallHandler(handler, Call(sec, name, value), lineno, error, calls);
    } else if error == 0 {
      error' := lineno;
    }
  }

  /** What a stripped line does: a comment, a continuation, a section or a setting, in that order. */
  method ActOnStart(line: array<char>, section: array<char>, prevName: array<char>, lineno: nat, error: nat,
        calls: seq<Call>, handler: Handler, start: nat, ghost s: Start, ghost st: State)
    returns (error': nat, calls': seq<Call>)
    requires line != section && line != prevName && section != prevName
    requires Holds(line[..], start, s.text) && (start > 0 <==> s.indented)
    requires Keeps(section, prevName, lineno, error, calls, st)
    modifies line, section, prevName
    ensures Keeps(section, prevName, lineno, error', calls', Act(st, MeaningAt(st.prevName, s), handler))
  {
    error', calls' := error, calls;
    assert s.text != "" ==> s.text[0] == line[start];
    assert st.prevName != "" ==> st.prevName[0] == prevName[0];
    if line[start] == ';' || line[start] == '#' || line[start] == NUL {
    } else if prevName[0] != NUL && start > 0 {
      var value := StringAt(line, start, s.text);
      var sec := StringAt(section, 0, st.section);
      var name := StringAt(prevName, 0, st.prevName);
      error', calls' := CallHandler(handler, Call(sec, name, value), lineno, error, calls);
    } else if line[start] == '[' {
      HoldsSuffix(line[..], start, s.text, 1);
      error' := ActOnHeading(line, section, prevName, lineno, error, calls, handler, start, s.text[1..], st);
    } else {
      error', calls' := ActOnSetting(line, section, prevName, lineno, error, calls, handler, start, s.text, st);
    }
  }

  method ParseBuffer(line: array<char>, section: array<char>, prevName: array<char>, lineno: nat, error: nat,
        calls: seq<Call>, handler: Handler, ghost text: string, ghost done: seq<string>)
    returns (error': nat, calls': seq<Call>)
    requires line.Length == MAX_LINE && line != section && line != prevName && section != prevName
    requires Holds(line[..], 0, text) && lineno == |done| + 1
    requires Keeps(section, prevName, |done|, error, calls, ParseLines(done, Classify, handler))
    modifies line, section, prevName
    ensures Keeps(section, prevName, lineno, error', calls', ParseLines(done + [text], Classify, handler))
  {
    ghost var st := ParseLines(done, Classify, handler).(lineno := lineno);
    NextLine(done, text, Classify, handler);
    var start := StartOfLine(line, lineno, text);
    ghost var s := StartOf(text, lineno == 1);
    error', calls' := ActOnStart(line, section, prevName, lineno, error, calls, handler, start, s, st);
  }

  lemma FirstOfPieces(text: string, n: nat)
    requires text != "" && n == PieceLength(text, MAX_LINE - 1)
    ensures Pieces(text) == [text[..n]] + Pieces(text[n..])
  {
  }

  lemma Regroup(done: seq<string>, piece: string, rest: seq<string>)
    ensures done + [piece] + rest == done + ([piece] + rest)
  {
  }

  /** The pieces read so far and those still to come, one piece later. */
  lemma NextPiece(text: string, from: nat, to: nat, done: seq<string>)
    requires from < |text| && to == from + PieceLength(text[from..], MAX_LINE - 1)
    ensures done + [text[from..to]] + Pieces(text[to..]) == done + Pieces(text[from..])
  {
    FirstOfPieces(text[from..], to - from);
    assert text[from..][..to - from] == text[from..to] && text[from..][to - from..] == text[to..];
    Regroup(done, text[from..to], Pieces(text[to..]));
  }

  /** Parse a stream to its end. */
  method ParseStream(reader: StringReader, handler: Handler) returns (error: nat, calls: seq<Call>)
    requires reader.Valid() && reader.pos == 0
    modifies reader`pos
    ensures error == ParseString(reader.text, handler).error && calls == ParseString(reader.text, handler).calls
  {
    var line, section, prevName := new char[MAX_LINE], new char[MAX_SECTION], new char[MAX_NAME];
    section[0], prevName[0] := NUL, NUL;
    var lineno := 0;
    error, calls := 0, [];
    ghost var done: seq<string> := [];
    while true
      invariant reader.Valid() && fresh(line) && fresh(section) && fresh(prevName)
      invariant line.Length == MAX_LINE && line != section && line != prevName && section != prevName
      invariant lineno == |done| && Keeps(section, prevName, |done|, error, calls, ParseLines(done, Classify, handler))
      invariant done + Pieces(reader.text[reader.pos..]) == Pieces(reader.text[0..])
      decreases |reader.text| - reader.pos
    {
      ghost var from := reader.pos;
      var more := reader.Read(line, MAX_LINE);
      if !more { break; }
      ghost var piece := reader.text[from..reader.pos];
      lineno := lineno + 1;
      error, calls := ParseBuffer(line, section, prevName, lineno, error, calls, handler, piece, done);
      NextPiece(reader.text, from, reader.pos, done);
      done := done + [piece];
    }
    assert reader.text[0..] == reader.text && done + [] == done;
  }

  method IniParseString(text: string, handler: Handler) returns (error: nat, calls: seq<Call>)
    requires NUL !in text
    ensures error == ParseString(text, handler).error && calls == ParseString(text, handler).calls
  {
    var reader := new StringReader(text);
    error, calls := ParseStream(reader, handler);
  }
}
