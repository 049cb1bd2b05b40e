/** The grammar of configuration lines: every line is one item, written with any layout, and is read as
    exactly what that item says. */
module IniGrammar {
  import opened IniText
  import opened IniParser

  /** A line: what it says, and everything around it. `pre` comes first and may hold a byte order mark;
      `post` is what follows, a comment included where one is allowed. */
  datatype Item =
    | Header(pre: string, section: string, over: string, post: string)
    | Entry(pre: string, name: string, before: string, delimiter: char, after: string, value: string, post: string)
    | More(pre: string, value: string, post: string)
    | Note(pre: string, sign: char, text: string)
    | Gap(pre: string)
    | Junk(pre: string, text: string, post: string)
    | Unclosed(pre: string, text: string, post: string)

  function Print(item: Item): string {
    match item
    case Header(pre, section, over, post) => pre + ("[" + (section + over) + "]" + post)
    case Entry(pre, name, before, delimiter, after, value, post) =>
      pre + (name + before + [delimiter] + (after + value + post))
    case More(pre, value, post) => pre + (value + post)
    case Note(pre, sign, text) => pre + ([sign] + text)
    case Gap(pre) => pre
    case Junk(pre, text, post) => pre + (text + post)
    case Unclosed(pre, text, post) => pre + ("[" + text + post)
  }

  function Intent(item: Item): Meaning {
    match item
    case Header(_, section, _, _) => Heading(section)
    case Entry(_, name, _, _, _, value, _) => Setting(name, value)
    case More(_, value, _) => Continued(value)
    case Note(_, _, _) => Blank
    case Gap(_) => Blank
    case Junk(_, _, _) => Malformed
    case Unclosed(_, _, _) => Malformed
  }

  // ---------------------------------------------------------------------------------------------
  // Layout and fields
  // ---------------------------------------------------------------------------------------------

  predicate AllBlank(s: string) {
    forall k :: 0 <= k < |s| ==> IsSpace(s[k])
  }

  /** Blanks, on the first line of a file after an optional byte order mark. */
  predicate IsLead(pre: string, first: bool) {
    AllBlank(pre) || (first && BOM <= pre && AllBlank(pre[3..]))
  }

  /** Blanks, and after at least one (or after a blank already there) an optional comment. */
  predicate IsTail(post: string, spaced: bool) {
    var b := Blanks(post);
    b == |post| || (post[b] == ';' && (b > 0 || spaced))
  }

  /** What comes after a section that fills its buffer, up to the bracket. */
  predicate IsOver(section: string, over: string) {
    over == "" || (|section| == MAX_SECTION - 1 && Quiet([section[|section| - 1]] + over, "]"))
  }

  /** The layout is made of what layout is made of. */
  predicate Shaped(item: Item, first: bool) {
    && IsLead(item.pre, first)
    && match item
       case Header(_, section, over, _) => IsOver(section, over)
       case Entry(_, _, before, delimiter, after, value, post) =>
         && AllBlank(before) && (delimiter == '=' || delimiter == ':') && AllBlank(after)
         && IsTail(post, value == "" && after != "")
       case More(_, _, post) => AllBlank(post)
       case Note(_, sign, _) => sign == ';' || sign == '#'
       case Gap(_) => true
       case Junk(_, _, post) => AllBlank(post)
       case Unclosed(_, _, post) => AllBlank(post)
  }

  /** No character of the list, and no comment sign right after whitespace. */
  predicate Quiet(s: string, chars: string) {
    forall k :: 0 <= k < |s| ==> !Stops(s, k, chars)
  }

  /** One of the characters comes before any comment. */
  predicate Delimited(s: string, chars: string) {
    exists k :: 0 <= k < |s| && s[k] in chars && Quiet(s[..k], chars)
  }

  predicate Trimmed(s: string) {
    s == "" || (!IsSpace(s[0]) && !IsSpace(s[|s| - 1]))
  }

  /** What is left of the first character says what kind of line it is. */
  predicate Plain(s: string) {
    s == "" || (s[0] != ';' && s[0] != '#' && s[0] != '[')
  }

  /** The line is indented while there is a name to continue. */
  predicate Continues(pre: string, prevName: string) {
    pre != "" && prevName != ""
  }

  /** On the first line a byte order mark counts as one only where it is meant. */
  predicate BomIsMeant(item: Item, first: bool) {
    first && BOM <= Print(item) ==> BOM <= item.pre
  }

  /** The fields that survive being written with this layout. */
  predicate Printable(item: Item, prevName: string, first: bool) {
    && BomIsMeant(item, first)
    && match item
       case Header(pre, section, _, _) => !Continues(pre, prevName) && Quiet(section, "]") && |section| < MAX_SECTION
       case Entry(pre, name, before, _, after, value, _) =>
         && !Continues(if name == "" then pre + before else pre, prevName)
         && Trimmed(name) && Quiet(name, "=:") && Plain(name)
         && Trimmed(value) && Quiet(value, "") && !(after != "" && value != "" && value[0] == ';')
       case More(pre, value, _) =>
         Continues(pre, prevName) && value != "" && Trimmed(value) && value[0] != ';' && value[0] != '#'
       case Note(_, _, _) => true
       case Gap(_) => true
       case Junk(pre, text, _) =>
         !Continues(pre, prevName) && text != "" && Trimmed(text) && Plain(text) && !Delimited(text, "=:")
       case Unclosed(pre, text, _) =>
         !Continues(pre, prevName) && (text != "" ==> !IsSpace(text[|text| - 1])) && !Delimited(text, "]")
  }

  // ---------------------------------------------------------------------------------------------
  // Where the text of a line starts
  // ---------------------------------------------------------------------------------------------

  lemma LeadIsSkipped(pre: string, x: string, first: bool)
    requires IsLead(pre, first) && (first && BOM <= pre + x ==> BOM <= pre)
    ensures var skipped := SkipBom(pre + x, first);
            skipped <= |pre| && (pre + x)[skipped..] == pre[skipped..] + x && AllBlank(pre[skipped..])
  {
    if first && BOM <= pre {
      assert (pre + x)[..3] == pre[..3];
      assert BOM <= pre + x;
      assert pre[0] == BOM[0] && !IsSpace(pre[0]);
    }
  }

  lemma StrippedAfterBlanks(blanks: string, x: string)
    requires AllBlank(blanks) && x != "" && !IsSpace(x[0])
    ensures Stripped(blanks + x) == blanks + Stripped(x)
    ensures Stripped(x) != "" && Stripped(x)[0] == x[0] && Blanks(blanks + Stripped(x)) == |blanks|
  {
    var r := Stripped(x);
    assert |r| >= 1;
    assert r == x[..|r|];
    StrippedIs(blanks + x, blanks + r);
    BlanksIs(blanks + r, |blanks|);
  }

  /** The text of a line starts at its first character that is neither mark nor blank. */
  lemma StartIs(pre: string, x: string, first: bool)
    requires IsLead(pre, first) && (first && BOM <= pre + x ==> BOM <= pre) && x != "" && !IsSpace(x[0])
    ensures StartOf(pre + x, first) == Start(Stripped(x), pre != "") && Stripped(x) != "" && Stripped(x)[0] == x[0]
  {
    var skipped := SkipBom(pre + x, first);
    LeadIsSkipped(pre, x, first);
    var blanks := pre[skipped..];
    StrippedAfterBlanks(blanks, x);
    assert (blanks + Stripped(x))[|blanks|..] == Stripped(x);
  }

  lemma StartOfNothing(pre: string, first: bool)
    requires IsLead(pre, first)
    ensures StartOf(pre, first).text == ""
  {
    assert pre + "" == pre;
    LeadIsSkipped(pre, "", first);
    var blanks := pre[SkipBom(pre, first)..];
    assert blanks + "" == blanks;
    StrippedIs(blanks, "");
  }

  /** Stripping cannot go past a character that is not blank. */
  lemma StrippedKeeps(a: string, c: char, post: string) returns (q: string, b: string)
    requires !IsSpace(c)
    ensures Stripped(a + [c] + post) == a + [c] + q && post == q + b && AllBlank(b)
    ensures q == "" || !IsSpace(q[|q| - 1])
  {
    var x := a + [c] + post;
    q := Stripped(post);
    b := post[|q|..];
    assert forall k :: 0 <= k < |b| ==> b[k] == post[|q| + k];
    var r := a + [c] + q;
    assert q == post[..|q|];
    assert r[|r| - 1] == if q == "" then c else q[|q| - 1];
    StrippedIs(x, r);
  }

  // ---------------------------------------------------------------------------------------------
  // Fields
  // ---------------------------------------------------------------------------------------------

  /** A scan over a printed field stops at its delimiter exactly when the field is quiet. */
  lemma FindDelimiter(field: string, rest: string, chars: string)
    requires rest != "" && rest[0] in chars
    ensures Find(field + rest, chars) <= |field|
    ensures Find(field + rest, chars) == |field| <==> Quiet(field, chars)
  {
    var s := field + rest;
    assert forall k :: 0 <= k < |field| ==> Stops(s, k, chars) == Stops(field, k, chars);
    assert Stops(s, |field|, chars);
    if Quiet(field, chars) { FindIs(s, chars, |field|); }
  }

  lemma FindIsDelimited(s: string, chars: string)
    ensures var n := Find(s, chars); n < |s| && s[n] in chars <==> Delimited(s, chars)
  {
    var n := Find(s, chars);
    assert forall k :: 0 <= k < n ==> Stops(s[..n], k, chars) == Stops(s, k, chars);
    if Delimited(s, chars) {
      var k :| 0 <= k < |s| && s[k] in chars && Quiet(s[..k], chars);
      assert forall j :: 0 <= j < k ==> Stops(s[..k], j, chars) == Stops(s, j, chars);
      assert Stops(s, k, chars);
      assert n == k;
    }
  }

  lemma QuietWithBlanks(s: string, blanks: string, chars: string)
    requires AllBlank(blanks) && (forall c :: c in chars ==> !IsSpace(c))
    ensures Quiet(s + blanks, chars) <==> Quiet(s, chars)
  {
    var t := s + blanks;
    assert forall k :: 0 <= k < |s| ==> Stops(t, k, chars) == Stops(s, k, chars);
    forall k | |s| <= k < |t| ensures !Stops(t, k, chars) {
      assert t[k] == blanks[k - |s|];
    }
  }

  lemma StrippedOfTrimmed(s: string, blanks: string)
    requires AllBlank(blanks) && (s == "" || !IsSpace(s[|s| - 1]))
    ensures Stripped(s + blanks) == s
  {
    StrippedIs(s + blanks, s);
  }

  lemma TrimIs(a: string, v: string, b: string)
    requires AllBlank(a) && AllBlank(b) && Trimmed(v)
    ensures Trim(a + v + b) == v
  {
    var s := a + v + b;
    if v == "" {
      BlanksIs(s, |s|);
    } else {
      BlanksIs(s, |a|);
      assert s[|a|..] == v + b;
      StrippedOfTrimmed(v, b);
    }
  }

  lemma TrimOfBlanks(s: string)
    requires AllBlank(s)
    ensures Trim(s) == ""
  {
    BlanksIs(s, |s|);
  }

  lemma Associative(a: string, b: string, c: string)
    ensures a + b + c == a + (b + c)
  {
  }

  lemma FindInPrefix(s: string, n: nat, chars: string)
    requires n <= |s| && Find(s, chars) < n
    ensures Find(s[..n], chars) == Find(s, chars)
  {
    var c := Find(s, chars);
    assert forall k :: 0 <= k <= c ==> Stops(s[..n], k, chars) == Stops(s, k, chars);
    FindIs(s[..n], chars, c);
  }

  lemma QuietJoin(a: string, b: string)
    requires Quiet(a, "") && Quiet(b, "") && !(a != "" && IsSpace(a[|a| - 1]) && b != "" && b[0] == ';')
    ensures Quiet(a + b, "")
  {
    var s := a + b;
    forall k | 0 <= k < |s| ensures !Stops(s, k, "") {
      if k < |a| {
        assert !Stops(a, k, "");
      } else {
        assert !Stops(b, k - |a|, "") && (k > |a| ==> s[k - 1] == b[k - 1 - |a|]) && s[k] == b[k - |a|];
      }
    }
  }

  lemma BlanksAreQuiet(s: string)
    requires AllBlank(s)
    ensures Quiet(s, "")
  {
  }

  lemma StopsBehind(head: string, comment: string, rest: string)
    requires rest == head + comment && Quiet(head, "") && comment != "" && comment[0] == ';'
    requires head != "" && IsSpace(head[|head| - 1])
    ensures Find(rest, "") == |head| && rest[|head|] == ';' && rest[..|head|] == head
  {
    assert forall k :: 0 <= k < |head| ==> Stops(head, k, "") == Stops(rest, k, "");
    FindIs(rest, "", |head|);
  }

  lemma QuietParts(after: string, value: string, blanks: string)
    requires AllBlank(after) && AllBlank(blanks) && Quiet(value, "")
    requires !(after != "" && value != "" && value[0] == ';')
    ensures Quiet(after + value + blanks, "")
  {
    BlanksAreQuiet(after);
    BlanksAreQuiet(blanks);
    QuietJoin(after, value);
    QuietJoin(after + value, blanks);
  }

  lemma EndsBlank(after: string, value: string, blanks: string)
    requires AllBlank(after) && AllBlank(blanks) && (blanks != "" || (value == "" && after != ""))
    ensures var head := after + value + blanks; head != "" && IsSpace(head[|head| - 1])
  {
  }

  /** The first stop of what follows a delimiter is the comment. */
  lemma CommentStops(after: string, value: string, blanks: string, comment: string, rest: string)
    requires AllBlank(after) && AllBlank(blanks) && Quiet(value, "")
    requires !(after != "" && value != "" && value[0] == ';') && (blanks != "" || (value == "" && after != ""))
    requires comment != "" && comment[0] == ';' && rest == after + value + blanks + comment
    ensures var head := after + value + blanks;
            Find(rest, "") == |head| < |rest| && rest[|head|] == ';' && rest[..|head|] == head
  {
    QuietParts(after, value, blanks);
    EndsBlank(after, value, blanks);
    StopsBehind(after + value + blanks, comment, rest);
  }

  lemma NotInTail(s: string, q: string, b: string, c: nat)
    requires s == q + b && AllBlank(b) && c < |s| && !IsSpace(s[c])
    ensures c < |q|
  {
    assert forall k :: |q| <= k < |s| ==> s[k] == b[k - |q|];
  }

  lemma CutBeforeTail(rest: string, q: string, b: string, c: nat)
    requires rest == q + b && AllBlank(b) && c < |rest| && !IsSpace(rest[c]) && Find(rest, "") == c
    ensures Find(q, "") == c < |q| && q[..c] == rest[..c]
  {
    NotInTail(rest, q, b, c);
    assert rest[..|q|] == q;
    FindInPrefix(rest, |q|, "");
  }

  lemma NoCommentCuts(after: string, value: string, post: string, q: string, b: string)
    requires AllBlank(after) && Trimmed(value) && Quiet(value, "") && AllBlank(post)
    requires !(after != "" && value != "" && value[0] == ';')
    requires after + value + post == q + b && AllBlank(b) && (q == "" || !IsSpace(q[|q| - 1]))
    ensures q == (if value == "" then "" else after + value) && Find(q, "") == |q|
  {
    var rest := after + value + post;
    if value == "" {
      assert AllBlank(rest);
      assert |q| == 0;
    } else {
      StrippedIs(rest, q);
      assert rest[..|after + value|] == after + value;
      assert (after + value)[|after + value| - 1] == value[|value| - 1];
      StrippedIs(rest, after + value);
      forall k | 0 <= k < |q| ensures !Stops(q, k, "") {
        if k >= |after| { assert !Stops(value, k - |after|, ""); }
      }
    }
    FindIs(q, "", |q|);
  }

  /** A value is read whole whatever blanks are around it and whatever comment follows. */
  lemma ValueReads(after: string, value: string, post: string, q: string, b: string)
    requires AllBlank(after) && Trimmed(value) && Quiet(value, "") && IsTail(post, value == "" && after != "")
    requires !(after != "" && value != "" && value[0] == ';')
    requires after + value + post == q + b && AllBlank(b) && (q == "" || !IsSpace(q[|q| - 1]))
    ensures Trim(q[..Find(q, "")]) == value
  {
    if Blanks(post) < |post| {
      var blanks, comment := post[..Blanks(post)], post[Blanks(post)..];
      Associative(after + value, blanks, comment);
      CommentStops(after, value, blanks, comment, after + value + post);
      CutBeforeTail(after + value + post, q, b, |after + value + blanks|);
      TrimIs(after, value, blanks);
    } else {
      NoCommentCuts(after, value, post, q, b);
      assert q[..|q|] == q;
      if value == "" {
        TrimOfBlanks(q);
      } else {
        assert after + value == after + value + "";
        TrimIs(after, value, "");
      }
    }
  }

  // ---------------------------------------------------------------------------------------------
  // Every item is read as what it says
  // ---------------------------------------------------------------------------------------------

  lemma QuietOver(section: string, over: string)
    requires IsOver(section, over)
    ensures Quiet(section + over, "]") <==> Quiet(section, "]")
  {
    var all := section + over;
    assert forall k :: 0 <= k < |section| ==> Stops(all, k, "]") == Stops(section, k, "]");
    if over != "" {
      var tail := [section[|section| - 1]] + over;
      forall k | |section| <= k < |all| ensures !Stops(all, k, "]") {
        assert !Stops(tail, k - |section| + 1, "]");
      }
    } else {
      assert all == section;
    }
  }

  lemma HeadingReads(section: string, over: string, q: string)
    requires IsOver(section, over)
    ensures HeadingOf(section + over + ("]" + q)) == Heading(section) <==>
            Quiet(section, "]") && |section| < MAX_SECTION
  {
    var all := section + over;
    QuietOver(section, over);
    FindDelimiter(all, "]" + q, "]");
    assert (all + ("]" + q))[..|all|] == all;
    assert all[..|section|] == section;
    if !Quiet(section, "]") { ShorterHeading(section, over, q); }
  }

  lemma ShorterHeading(section: string, over: string, q: string)
    requires IsOver(section, over) && !Quiet(section, "]")
    ensures HeadingOf(section + over + ("]" + q)) != Heading(section)
  {
    var s := section + over + ("]" + q);
    var k :| 0 <= k < |section| && Stops(section, k, "]");
    assert Stops(s, k, "]");
  }

  lemma BracketMeans(section: string, over: string, q: string, prevName: string, indented: bool)
    requires IsOver(section, over)
    ensures MeaningAt(prevName, Start("[" + (section + over) + "]" + q, indented)) == Heading(section) <==>
            !(indented && prevName != "") && Quiet(section, "]") && |section| < MAX_SECTION
  {
    assert ("[" + (section + over) + "]" + q)[1..] == section + over + ("]" + q);
    HeadingReads(section, over, q);
  }

  lemma MarkOnlyInLead(pre: string, x: string, first: bool)
    requires IsLead(pre, first) && x != "" && x[0] != BOM[0]
    ensures first && BOM <= pre + x ==> BOM <= pre
  {
    assert (pre + x)[0] == if pre == "" then x[0] else pre[0];
  }

  lemma BracketStarts(pre: string, text: string, post: string, first: bool) returns (q: string)
    requires IsLead(pre, first)
    ensures StartOf(pre + ("[" + text + "]" + post), first) == Start("[" + text + "]" + q, pre != "")
  {
    var x := "[" + text + "]" + post;
    MarkOnlyInLead(pre, x, first);
    StartIs(pre, x, first);
    var b;
    q, b := StrippedKeeps("[" + text, ']', post);
    assert "[" + text + "]" == "[" + text + [']'];
  }

  /** Header round trip: a section is read back exactly when it is short, holds no bracket and no comment,
      and is not indented under a name. */
  lemma HeaderRoundTrip(pre: string, section: string, over: string, post: string, prevName: string, first: bool)
    requires IsLead(pre, first) && IsOver(section, over)
    ensures Classify(prevName, pre + ("[" + (section + over) + "]" + post), first) == Heading(section) <==>
            !Continues(pre, prevName) && Quiet(section, "]") && |section| < MAX_SECTION
  {
    var q := BracketStarts(pre, section + over, post, first);
    BracketMeans(section, over, q, prevName, pre != "");
  }

  lemma NoteReads(item: Item, prevName: string, first: bool)
    requires item.Note? && Shaped(item, first) && Printable(item, prevName, first)
    ensures Classify(prevName, Print(item), first) == Blank
  {
    StartIs(item.pre, [item.sign] + item.text, first);
  }

  lemma GapReads(item: Item, prevName: string, first: bool)
    requires item.Gap? && Shaped(item, first)
    ensures Classify(prevName, Print(item), first) == Blank
  {
    StartOfNothing(item.pre, first);
  }

  lemma JunkMeans(text: string, prevName: string, indented: bool)
    requires !(indented && prevName != "") && text != "" && Plain(text) && !Delimited(text, "=:")
    ensures MeaningAt(prevName, Start(text, indented)) == Malformed
  {
    FindIsDelimited(text, "=:");
  }

  /** A trimmed text between a lead and blanks is where its line starts, and all of it. */
  lemma StartOfTrimmed(pre: string, text: string, post: string, first: bool)
    requires IsLead(pre, first) && AllBlank(post) && text != "" && Trimmed(text)
    requires first && BOM <= pre + (text + post) ==> BOM <= pre
    ensures StartOf(pre + (text + post), first) == Start(text, pre != "")
  {
    StartIs(pre, text + post, first);
    StrippedOfTrimmed(text, post);
  }

  lemma JunkReads(pre: string, text: string, post: string, prevName: string, first: bool)
    requires IsLead(pre, first) && AllBlank(post) && text != "" && Trimmed(text)
    requires first && BOM <= pre + (text + post) ==> BOM <= pre
    requires !Continues(pre, prevName) && Plain(text) && !Delimited(text, "=:")
    ensures Classify(prevName, pre + (text + post), first) == Malformed
  {
    StartOfTrimmed(pre, text, post, first);
    JunkMeans(text, prevName, pre != "");
  }

  lemma UnclosedMeans(text: string, prevName: string, indented: bool)
    requires !(indented && prevName != "") && !Delimited(text, "]")
    ensures MeaningAt(prevName, Start("[" + text, indented)) == Malformed
  {
    assert ("[" + text)[1..] == text;
    FindIsDelimited(text, "]");
  }

  lemma UnclosedReads(pre: string, text: string, post: string, prevName: string, first: bool)
    requires IsLead(pre, first) && AllBlank(post) && (text != "" ==> !IsSpace(text[|text| - 1]))
    requires first && BOM <= pre + ("[" + text + post) ==> BOM <= pre
    requires !Continues(pre, prevName) && !Delimited(text, "]")
    ensures Classify(prevName, pre + ("[" + text + post), first) == Malformed
  {
    var body := "[" + text;
    assert body[|body| - 1] == if text == "" then '[' else text[|text| - 1];
    StartOfTrimmed(pre, body, post, first);
    UnclosedMeans(text, prevName, pre != "");
  }

  lemma MoreReads(pre: string, value: string, post: string, prevName: string, first: bool)
    requires IsLead(pre, first) && AllBlank(post) && value != "" && Trimmed(value)
    requires first && BOM <= pre + (value + post) ==> BOM <= pre
    requires Continues(pre, prevName) && value[0] != ';' && value[0] != '#'
    ensures Classify(prevName, pre + (value + post), first) == Continued(value)
  {
    StartOfTrimmed(pre, value, post, first);
  }

  /** A name and a value with blanks around the delimiter and any tail. */
  lemma SettingReads(name: string, before: string, delimiter: char, after: string, value: string, post: string,
                     q: string, b: string)
    requires AllBlank(before) && (delimiter == '=' || delimiter == ':')
    requires AllBlank(after) && IsTail(post, value == "" && after != "")
    requires after + value + post == q + b && AllBlank(b) && (q == "" || !IsSpace(q[|q| - 1]))
    requires Trimmed(name) && Quiet(name, "=:") && Trimmed(value) && Quiet(value, "")
    requires !(after != "" && value != "" && value[0] == ';')
    ensures SettingOf((if name == "" then "" else name + before) + [delimiter] + q) == Setting(name, value)
  {
    var head := if name == "" then "" else name + before;
    var start := head + [delimiter] + q;
    QuietWithBlanks(name, before, "=:");
    FindDelimiter(head, [delimiter] + q, "=:");
    assert start == head + ([delimiter] + q);
    assert start[..|head|] == head && start[|head| + 1..] == q;
    StrippedOfTrimmed(name, before);
    ValueReads(after, value, post, q, b);
  }
  lemma SettingMeans(prevName: string, text: string, indented: bool)
    requires text != "" && Plain(text) && !(indented && prevName != "")
    ensures MeaningAt(prevName, Start(text, indented)) == SettingOf(text)
  {
  }

  /** What is before the first character of the text itself. */
  function LeadOf(pre: string, name: string, before: string): string {
    if name == "" then pre + before else pre
  }

  lemma DelimitedStarts(lead: string, head: string, delimiter: char, rest: string, first: bool)
    returns (q: string, b: string)
    requires IsLead(lead, first) && !IsSpace(delimiter) && (head == "" || !IsSpace(head[0]))
    requires first && BOM <= lead + (head + [delimiter] + rest) ==> BOM <= lead
    ensures rest == q + b && AllBlank(b) && (q == "" || !IsSpace(q[|q| - 1]))
    ensures StartOf(lead + (head + [delimiter] + rest), first) == Start(head + [delimiter] + q, lead != "")
  {
    var x := head + [delimiter] + rest;
    q, b := StrippedKeeps(head, delimiter, rest);
    assert x[0] == if head == "" then delimiter else head[0];
    StartIs(lead, x, first);
  }

  lemma LeadWithBlanks(pre: string, blanks: string, first: bool)
    requires IsLead(pre, first) && AllBlank(blanks)
    ensures IsLead(pre + blanks, first) && (BOM <= pre ==> BOM <= pre + blanks)
  {
    if !AllBlank(pre) { assert (pre + blanks)[3..] == pre[3..] + blanks; }
  }

  lemma NamelessParts(pre: string, before: string, delimiter: char, rest: string)
    ensures pre + ("" + before + [delimiter] + rest) == (pre + before) + ("" + [delimiter] + rest)
  {
  }

  /** Where a setting starts: at its name, or at its delimiter when it has none. */
  lemma EntryStarts(pre: string, name: string, before: string, delimiter: char, rest: string, first: bool)
    returns (q: string, b: string)
    requires IsLead(pre, first) && AllBlank(before) && (delimiter == '=' || delimiter == ':')
    requires name == "" || !IsSpace(name[0])
    requires first && BOM <= pre + (name + before + [delimiter] + rest) ==> BOM <= pre
    ensures rest == q + b && AllBlank(b) && (q == "" || !IsSpace(q[|q| - 1]))
    ensures var head := if name == "" then "" else name + before;
            StartOf(pre + (name + before + [delimiter] + rest), first) ==
            Start(head + [delimiter] + q, LeadOf(pre, name, before) != "")
  {
    if name == "" {
      NamelessParts(pre, before, delimiter, rest);
      LeadWithBlanks(pre, before, first);
      q, b := DelimitedStarts(pre + before, "", delimiter, rest, first);
    } else {
      q, b := DelimitedStarts(pre, name + before, delimiter, rest, first);
    }
  }

  lemma EntryMeans(name: string, before: string, delimiter: char, q: string, prevName: string, indented: bool)
    requires name != "" ==> !IsSpace(name[0])
    requires Plain(name) && (delimiter == '=' || delimiter == ':') && !(indented && prevName != "")
    ensures var head := if name == "" then "" else name + before;
            MeaningAt(prevName, Start(head + [delimiter] + q, indented)) == SettingOf(head + [delimiter] + q)
  {
    var head := if name == "" then "" else name + before;
    assert (head + [delimiter] + q)[0] == if name == "" then delimiter else name[0];
    SettingMeans(prevName, head + [delimiter] + q, indented);
  }

  lemma EntryReads(pre: string, name: string, before: string, delimiter: char, after: string, value: string,
                   post: string, prevName: string, first: bool)
    requires IsLead(pre, first) && AllBlank(before) && (delimiter == '=' || delimiter == ':')
    requires AllBlank(after) && IsTail(post, value == "" && after != "")
    requires first && BOM <= pre + (name + before + [delimiter] + (after + value + post)) ==> BOM <= pre
    requires !Continues(LeadOf(pre, name, before), prevName) && Plain(name)
    requires Trimmed(name) && Quiet(name, "=:") && Trimmed(value) && Quiet(value, "")
    requires !(after != "" && value != "" && value[0] == ';')
    ensures Classify(prevName, pre + (name + before + [delimiter] + (after + value + post)), first)
              == Setting(name, value)
  {
    var q, b := EntryStarts(pre, name, before, delimiter, after + value + post, first);
    EntryMeans(name, before, delimiter, q, prevName, LeadOf(pre, name, before) != "");
    SettingReads(name, before, delimiter, after, value, post, q, b);
  }
  // ---------------------------------------------------------------------------------------------
  // What is read is clean
  // ---------------------------------------------------------------------------------------------

  lemma NameIsClean(text: string, end: nat)
    requires text != "" && !IsSpace(text[0]) && end == Find(text, "=:") && end < |text|
    ensures var name := Stripped(text[..end]); Trimmed(name) && Quiet(name, "=:") && (name == "" || name[0] == text[0])
  {
    var name := Stripped(text[..end]);
    forall k | 0 <= k < |name| ensures name[k] == text[k] && !Stops(name, k, "=:") {
      assert !Stops(text, k, "=:");
    }
  }

  lemma ValueIsClean(rest: string)
    ensures var value := Trim(rest[..Find(rest, "")]); Trimmed(value) && Quiet(value, "")
  {
    var cut := rest[..Find(rest, "")];
    var b := Blanks(cut);
    var value := Trim(cut);
    forall k | 0 <= k < |value| ensures value[k] == rest[b + k] && !Stops(value, k, "") {
      assert !Stops(rest, b + k, "");
    }
    assert value != "" ==> value[0] == cut[b];
  }

  lemma StartIsBare(line: string, first: bool)
    ensures var t := StartOf(line, first).text; t != "" ==> !IsSpace(t[0]) && !IsSpace(t[|t| - 1])
  {
    var text := Stripped(line[SkipBom(line, first)..]);
    var t := text[Blanks(text)..];
    assert t != "" ==> t[|t| - 1] == text[|text| - 1] && t[0] == text[Blanks(text)];
  }

  /** What a setting can be, wherever it comes from. */
  lemma SettingIsClean(prevName: string, line: string, first: bool)
    requires Classify(prevName, line, first).Setting?
    ensures var start := StartOf(line, first);
            var m := Classify(prevName, line, first);
            && !(start.indented && prevName != "") && m == SettingOf(start.text)
            && Trimmed(m.name) && Quiet(m.name, "=:") && Plain(m.name) && Trimmed(m.value) && Quiet(m.value, "")
  {
    var text := StartOf(line, first).text;
    StartIsBare(line, first);
    var end := Find(text, "=:");
    NameIsClean(text, end);
    ValueIsClean(text[end + 1..]);
  }

  /** A comment sign after a blank takes the value with it. */
  lemma CommentTakesAll(after: string, rest: string, q: string, b: string)
    requires after != "" && AllBlank(after) && rest != "" && rest[0] == ';' && after + rest == q + b && AllBlank(b)
    ensures Trim(q[..Find(q, "")]) == ""
  {
    var s := after + rest;
    assert s[|after|] == ';';
    NotInTail(s, q, b, |after|);
    assert q == s[..|q|];
    assert Stops(q, |after|, "");
    var cut := q[..Find(q, "")];
    assert forall k :: 0 <= k < |cut| ==> cut[k] == after[k];
    TrimOfBlanks(cut);
  }

  /** The value of a setting is what its text has after the first delimiter. */
  lemma ValueIsAfter(name: string, before: string, delimiter: char, q: string)
    requires AllBlank(before) && (delimiter == '=' || delimiter == ':') && Quiet(name, "=:")
    ensures var m := SettingOf((if name == "" then "" else name + before) + [delimiter] + q);
            m.Setting? && m.value == Trim(q[..Find(q, "")])
  {
    var head := if name == "" then "" else name + before;
    QuietWithBlanks(name, before, "=:");
    FindDelimiter(head, [delimiter] + q, "=:");
    assert head + [delimiter] + q == head + ([delimiter] + q);
    assert (head + [delimiter] + q)[|head| + 1..] == q;
  }

  lemma BomAtName(pre: string, name: string, before: string, delimiter: char, rest: string)
    requires AllBlank(before) && (delimiter == '=' || delimiter == ':')
    requires BOM <= pre + (name + before + [delimiter] + rest) && AllBlank(pre)
    ensures pre == "" && BOM <= name
  {
    var line := pre + (name + before + [delimiter] + rest);
    assert line[0] == BOM[0] && line[1] == BOM[1] && line[2] == BOM[2];
    assert forall k :: 0 <= k < |before| ==> line[|pre| + |name| + k] == before[k];
    assert line[|pre| + |name| + |before|] == delimiter;
  }
  /** After a byte order mark, the text of a line is found again at most `i` characters later. */
  lemma TextAfterBom(line: string, i: nat) returns (b: nat)
    requires BOM <= line && 3 + i < |line| && !IsSpace(line[3 + i])
    ensures b <= i && var t := StartOf(line, true).text; i - b < |t| && t <= line[3 + b..]
  {
    var text := Stripped(line[3..]);
    assert line[3..][i] == line[3 + i];
    assert i < |text| && text[i] == line[3 + i];
    b := Blanks(text);
    assert line[3..][b..] == line[3 + b..];
  }

  /** A name ends before the first delimiter and before the blanks in front of it. */
  lemma NameIsBefore(text: string, at: nat, n: nat)
    requires n <= at < |text| && text[at] in "=:" && AllBlank(text[n..at])
    ensures SettingOf(text).Setting? ==> |SettingOf(text).name| <= n
  {
    assert Stops(text, at, "=:");
    var name := Stripped(text[..Find(text, "=:")]);
    assert forall k :: n <= k < at ==> text[n..at][k - n] == text[k];
  }

  lemma BlanksInside(text: string, line: string, b: nat, n: nat, at: nat, end: nat)
    requires 3 + b <= |line| && text <= line[3 + b..] && n <= at < |text| && end == 3 + b + at
    requires forall k :: 3 + b + n <= k < end ==> IsSpace(line[k])
    ensures AllBlank(text[n..at]) && text[at] == line[end]
  {
    var rest := line[3 + b..];
    forall k | 0 <= k < at - n ensures IsSpace(text[n..at][k]) {
      assert text[n + k] == rest[n + k] && IsSpace(line[3 + b + n + k]);
    }
    assert text[at] == rest[at];
  }

  lemma NameAfterBom(line: string, n: nat, end: nat)
    requires BOM <= line && 3 <= n <= end < |line| && line[end] in "=:"
    requires forall k :: n <= k < end ==> IsSpace(line[k])
    ensures var m := SettingOf(StartOf(line, true).text); m.Setting? ==> |m.name| < n
  {
    var b := TextAfterBom(line, end - 3);
    var text := StartOf(line, true).text;
    var cut := if 3 + b <= n then n - 3 - b else 0;
    BlanksInside(text, line, b, cut, end - 3 - b, end);
    NameIsBefore(text, end - 3 - b, cut);
  }

  /** A byte order mark at the start of the file is not part of the name. */
  lemma BomIsLost(name: string, before: string, delimiter: char, rest: string, prevName: string)
    requires BOM <= name && AllBlank(before) && (delimiter == '=' || delimiter == ':')
    ensures var m := Classify(prevName, name + before + [delimiter] + rest, true); m.Setting? ==> |m.name| < |name|
  {
    var line := name + before + [delimiter] + rest;
    assert forall k :: |name| <= k < |name + before| ==> line[k] == before[k - |name|];
    NameAfterBom(line, |name|, |name + before|);
    if Classify(prevName, line, true).Setting? { SettingIsClean(prevName, line, true); }
  }

  lemma BomIsMeantFor(pre: string, name: string, before: string, delimiter: char, rest: string, prevName: string,
                      first: bool)
    requires IsLead(pre, first) && AllBlank(before) && (delimiter == '=' || delimiter == ':')
    requires var m := Classify(prevName, pre + (name + before + [delimiter] + rest), first);
             m.Setting? && m.name == name
    ensures first && BOM <= pre + (name + before + [delimiter] + rest) ==> BOM <= pre
  {
    var line := pre + (name + before + [delimiter] + rest);
    if first && BOM <= line && !(BOM <= pre) {
      BomAtName(pre, name, before, delimiter, rest);
      assert line == name + before + [delimiter] + rest;
      BomIsLost(name, before, delimiter, rest, prevName);
    }
  }

  lemma ValueIsNotComment(after: string, value: string, post: string, q: string, b: string)
    requires AllBlank(after) && after + value + post == q + b && AllBlank(b) && value == Trim(q[..Find(q, "")])
    ensures !(after != "" && value != "" && value[0] == ';')
  {
    if after != "" && value != "" && value[0] == ';' {
      assert after + (value + post) == after + value + post;
      CommentTakesAll(after, value + post, q, b);
    }
  }

  lemma EntryIsPrintable(pre: string, name: string, before: string, delimiter: char, after: string, value: string,
                         post: string, prevName: string, first: bool)
    requires IsLead(pre, first) && AllBlank(before) && (delimiter == '=' || delimiter == ':') && AllBlank(after)
    requires Classify(prevName, pre + (name + before + [delimiter] + (after + value + post)), first)
               == Setting(name, value)
    ensures first && BOM <= pre + (name + before + [delimiter] + (after + value + post)) ==> BOM <= pre
    ensures !Continues(LeadOf(pre, name, before), prevName) && Plain(name)
    ensures Trimmed(name) && Quiet(name, "=:") && Trimmed(value) && Quiet(value, "")
    ensures !(after != "" && value != "" && value[0] == ';')
  {
    SettingIsClean(prevName, pre + (name + before + [delimiter] + (after + value + post)), first);
    BomIsMeantFor(pre, name, before, delimiter, after + value + post, prevName, first);
    var q, b := EntryStarts(pre, name, before, delimiter, after + value + post, first);
    ValueIsAfter(name, before, delimiter, q);
    ValueIsNotComment(after, value, post, q, b);
  }

  /** Entry round trip: a name and a value are read back, whatever the layout, exactly when they are free of
      outer blanks, delimiters and comments, and nothing before them makes the line another kind of line. */
  lemma EntryRoundTrip(pre: string, name: string, before: string, delimiter: char, after: string, value: string,
                       post: string, prevName: string, first: bool)
    requires IsLead(pre, first) && AllBlank(before) && (delimiter == '=' || delimiter == ':')
    requires AllBlank(after) && IsTail(post, value == "" && after != "")
    ensures var line := pre + (name + before + [delimiter] + (after + value + post));
            Classify(prevName, line, first) == Setting(name, value) <==>
            && (first && BOM <= line ==> BOM <= pre)
            && !Continues(LeadOf(pre, name, before), prevName)
            && Trimmed(name) && Quiet(name, "=:") && Plain(name)
            && Trimmed(value) && Quiet(value, "") && !(after != "" && value != "" && value[0] == ';')
  {
    if Classify(prevName, pre + (name + before + [delimiter] + (after + value + post)), first) == Setting(name, value) {
      EntryIsPrintable(pre, name, before, delimiter, after, value, post, prevName, first);
    } else if && (first && BOM <= pre + (name + before + [delimiter] + (after + value + post)) ==> BOM <= pre)
              && !Continues(LeadOf(pre, name, before), prevName)
              && Trimmed(name) && Quiet(name, "=:") && Plain(name)
              && Trimmed(value) && Quiet(value, "") && !(after != "" && value != "" && value[0] == ';') {
      EntryReads(pre, name, before, delimiter, after, value, post, prevName, first);
    }
  }

  lemma MarkComesFirst(pre: string, x: string)
    requires AllBlank(pre) && BOM <= pre + x
    ensures pre == "" && pre + x == x
  {
    assert (pre + x)[0] == BOM[0];
  }

  lemma ShorterAfterBom(value: string, post: string)
    requires AllBlank(post) && BOM <= value + post
    ensures |StartOf(value + post, true).text| < |value|
  {
    var line := value + post;
    assert line[0] == BOM[0] && line[1] == BOM[1] && line[2] == BOM[2];
    assert forall k :: |value| <= k < |line| ==> line[k] == post[k - |value|];
    var text := Stripped(line[3..]);
    assert text != "" ==> text[|text| - 1] == line[3..][|text| - 1];
  }

  /** Only indentation continues, and a byte order mark is not part of a value. */
  lemma MoreIsIndented(pre: string, value: string, post: string, prevName: string, first: bool)
    requires IsLead(pre, first) && AllBlank(post)
    requires Classify(prevName, pre + (value + post), first) == Continued(value)
    ensures Continues(pre, prevName) && (first && BOM <= pre + (value + post) ==> BOM <= pre)
  {
    var line := pre + (value + post);
    StartIsBare(line, first);
    if first && BOM <= line && !(BOM <= pre) {
      MarkComesFirst(pre, value + post);
      ShorterAfterBom(value, post);
    } else {
      StartOfTrimmed(pre, value, post, first);
    }
  }

  /** Continuation round trip: a text is read back as a continuation exactly when it is indented under a
      name, trimmed, and neither empty nor a comment. */
  lemma MoreRoundTrip(pre: string, value: string, post: string, prevName: string, first: bool)
    requires IsLead(pre, first) && AllBlank(post)
    ensures Classify(prevName, pre + (value + post), first) == Continued(value) <==>
            && (first && BOM <= pre + (value + post) ==> BOM <= pre) && Continues(pre, prevName)
            && value != "" && Trimmed(value) && value[0] != ';' && value[0] != '#'
  {
    if Classify(prevName, pre + (value + post), first) == Continued(value) {
      StartIsBare(pre + (value + post), first);
      MoreIsIndented(pre, value, post, prevName, first);
    } else if && (first && BOM <= pre + (value + post) ==> BOM <= pre) && Continues(pre, prevName)
              && value != "" && Trimmed(value) && value[0] != ';' && value[0] != '#' {
      MoreReads(pre, value, post, prevName, first);
    }
  }
  lemma MarkBeforeHeader(pre: string, section: string, over: string, post: string, first: bool)
    requires IsLead(pre, first)
    ensures first && BOM <= pre + ("[" + (section + over) + "]" + post) ==> BOM <= pre
  {
    MarkOnlyInLead(pre, "[" + (section + over) + "]" + post, first);
  }

  lemma HeaderReads(item: Item, prevName: string, first: bool)
    requires item.Header? && Shaped(item, first)
    ensures Classify(prevName, Print(item), first) == Intent(item) <==> Printable(item, prevName, first)
  {
    MarkBeforeHeader(item.pre, item.section, item.over, item.post, first);
    HeaderRoundTrip(item.pre, item.section, item.over, item.post, prevName, first);
  }

  lemma SettingItemReads(item: Item, prevName: string, first: bool)
    requires item.Entry? && Shaped(item, first)
    ensures Classify(prevName, Print(item), first) == Intent(item) <==> Printable(item, prevName, first)
  {
    match item
    case Entry(pre, name, before, delimiter, after, value, post) =>
      EntryRoundTrip(pre, name, before, delimiter, after, value, post, prevName, first);
  }

  lemma ContinuationReads(item: Item, prevName: string, first: bool)
    requires item.More? && Shaped(item, first)
    ensures Classify(prevName, Print(item), first) == Intent(item) <==> Printable(item, prevName, first)
  {
    MoreRoundTrip(item.pre, item.value, item.post, prevName, first);
  }

  lemma MalformedReads(item: Item, prevName: string, first: bool)
    requires (item.Junk? || item.Unclosed?) && Shaped(item, first) && Printable(item, prevName, first)
    ensures Classify(prevName, Print(item), first) == Malformed
  {
    match item
    case Junk(pre, text, post) => JunkReads(pre, text, post, prevName, first);
    case Unclosed(pre, text, post) => UnclosedReads(pre, text, post, prevName, first);
  }

  /** Line round trip: an item written with any layout is read as what it says when it is printable, and a
      section, a setting or a continuation only then. */
  lemma LineRoundTrip(item: Item, prevName: string, first: bool)
    requires Shaped(item, first)
    ensures Printable(item, prevName, first) ==> Classify(prevName, Print(item), first) == Intent(item)
    ensures item.Header? || item.Entry? || item.More? ==>
              (Classify(prevName, Print(item), first) == Intent(item) <==> Printable(item, prevName, first))
  {
    match item
    case Header(_, _, _, _) => HeaderReads(item, prevName, first);
    case Entry(_, _, _, _, _, _, _) => SettingItemReads(item, prevName, first);
    case More(_, _, _) => ContinuationReads(item, prevName, first);
    case Note(_, _, _) => if Printable(item, prevName, first) { NoteReads(item, prevName, first); }
    case Gap(_) => GapReads(item, prevName, first);
    case _ => if Printable(item, prevName, first) { MalformedReads(item, prevName, first); }
  }
  // ---------------------------------------------------------------------------------------------
  // Every line is an item
  // ---------------------------------------------------------------------------------------------

  /** The item is the line, after this name to continue. */
  predicate Writes(item: Item, prevName: string, line: string, first: bool) {
    Shaped(item, first) && Printable(item, prevName, first) && Print(item) == line
  }

  /** The lead of a line, and where its text starts. */
  lemma LeadAndText(line: string, first: bool) returns (pre: string, x: string)
    ensures line == pre + x && IsLead(pre, first) && (first && BOM <= line ==> BOM <= pre)
    ensures x == "" || !IsSpace(x[0])
  {
    var skipped := SkipBom(line, first);
    var body := line[skipped..];
    var n := skipped + Blanks(body);
    pre, x := line[..n], line[n..];
    var blanks := body[..Blanks(body)];
    if skipped == 3 { assert pre[..3] == BOM && pre[3..] == blanks; } else { assert pre == blanks; }
    assert x != "" ==> x[0] == body[Blanks(body)];
  }

  lemma BodyAndTail(x: string) returns (body: string, post: string)
    requires x != "" && !IsSpace(x[0])
    ensures x == body + post && AllBlank(post) && body != "" && Trimmed(body) && body[0] == x[0]
  {
    body := Stripped(x);
    post := x[|body|..];
    assert forall k :: 0 <= k < |post| ==> post[k] == x[|body| + k];
    assert body == x[..|body|];
    assert |body| > 0;
  }

  lemma StopsInPrefix(s: string, n: nat, chars: string)
    requires n <= Find(s, chars)
    ensures Quiet(s[..n], chars)
  {
    assert forall k :: 0 <= k < n ==> Stops(s[..n], k, chars) == Stops(s, k, chars);
  }

  lemma OverIsQuiet(s: string, n: nat)
    requires MAX_SECTION - 1 < n <= Find(s, "]")
    ensures IsOver(s[..MAX_SECTION - 1], s[MAX_SECTION - 1..n])
  {
    var last := MAX_SECTION - 2;
    var tail := [s[..last + 1][last]] + s[last + 1..n];
    assert forall k :: 0 <= k < |tail| ==> tail[k] == s[last + k];
    forall k | 0 <= k < |tail| ensures !Stops(tail, k, "]") {
      assert !Stops(s, last + k, "]");
    }
  }

  lemma HeaderParts(text: string, post: string) returns (section: string, over: string, more: string)
    requires Delimited(text, "]")
    ensures text + post == section + over + "]" + more
    ensures IsOver(section, over) && Quiet(section, "]") && |section| < MAX_SECTION
  {
    FindIsDelimited(text, "]");
    var n := Find(text, "]");
    var cut := if n < MAX_SECTION then n else MAX_SECTION - 1;
    section, over, more := text[..cut], text[cut..n], text[n + 1..] + post;
    StopsInPrefix(text, cut, "]");
    if cut < n { OverIsQuiet(text, n); }
  }
  lemma BlanksBehind(s: string) returns (blanks: string)
    ensures s == Stripped(s) + blanks && AllBlank(blanks)
  {
    blanks := s[|Stripped(s)|..];
    assert forall k :: 0 <= k < |blanks| ==> blanks[k] == s[|Stripped(s)| + k];
  }

  lemma NotAllStripped(s: string)
    requires s == "" || !IsSpace(s[0])
    ensures Stripped(s) == "" ==> s == ""
  {
  }

  lemma NameParts(text: string) returns (name: string, before: string, delimiter: char, rest: string)
    requires text != "" && !IsSpace(text[0]) && Plain(text) && Delimited(text, "=:")
    ensures text == name + before + [delimiter] + rest && AllBlank(before) && (delimiter == '=' || delimiter == ':')
    ensures Trimmed(name) && Quiet(name, "=:") && Plain(name) && (name == "" ==> before == "")
  {
    FindIsDelimited(text, "=:");
    var end := Find(text, "=:");
    NameIsClean(text, end);
    name, delimiter, rest := Stripped(text[..end]), text[end], text[end + 1..];
    before := BlanksBehind(text[..end]);
    assert text == text[..end] + [delimiter] + rest;
    NotAllStripped(text[..end]);
  }

  lemma TrimParts(cut: string) returns (after: string, value: string, blanks: string)
    ensures value == Trim(cut) && cut == after + value + blanks && AllBlank(after) && AllBlank(blanks)
  {
    var n := Blanks(cut);
    after, value := cut[..n], Stripped(cut[n..]);
    blanks := BlanksBehind(cut[n..]);
    Associative(after, value, blanks);
  }

  /** What is left of a value's line after the value: blanks, and a comment when there is one. */
  lemma TailParts(after: string, value: string, blanks: string, comment: string)
    requires AllBlank(blanks) && Trimmed(value)
    requires comment != "" ==>
               var cut := after + value + blanks; comment[0] == ';' && cut != "" && IsSpace(cut[|cut| - 1])
    ensures IsTail(blanks + comment, value == "" && after != "")
  {
    var tail := blanks + comment;
    if comment == "" {
      BlanksIs(tail, |tail|);
    } else {
      assert tail[|blanks|] == ';';
      BlanksIs(tail, |blanks|);
    }
  }

  lemma NoSignAfterBlanks(after: string, value: string, blanks: string)
    requires AllBlank(after) && Quiet(after + value + blanks, "")
    ensures !(after != "" && value != "" && value[0] == ';')
  {
    var cut := after + value + blanks;
    if value != "" {
      assert !Stops(cut, |after|, "") && cut[|after|] == value[0];
      assert after != "" ==> cut[|after| - 1] == after[|after| - 1];
    }
  }

  lemma ValueParts(rest: string) returns (after: string, value: string, post: string)
    ensures rest == after + value + post && AllBlank(after) && IsTail(post, value == "" && after != "")
    ensures Trimmed(value) && Quiet(value, "") && !(after != "" && value != "" && value[0] == ';')
  {
    var m := Find(rest, "");
    var cut, comment := rest[..m], rest[m..];
    ValueIsClean(rest);
    StopsInPrefix(rest, m, "");
    var blanks;
    after, value, blanks := TrimParts(cut);
    post := blanks + comment;
    TailParts(after, value, blanks, comment);
    NoSignAfterBlanks(after, value, blanks);
    Associative(after + value, blanks, comment);
  }

  lemma SettingItem(pre: string, body: string, tail: string, prevName: string, first: bool) returns (item: Item)
    requires IsLead(pre, first) && (first && BOM <= pre + (body + tail) ==> BOM <= pre)
    requires body != "" && !IsSpace(body[0]) && Plain(body) && Delimited(body, "=:") && !Continues(pre, prevName)
    ensures item.Entry? && Writes(item, prevName, pre + (body + tail), first)
  {
    var name, before, delimiter, rest := NameParts(body);
    var after, value, post := ValueParts(rest + tail);
    Associative(name + before + [delimiter], rest, tail);
    item := Entry(pre, name, before, delimiter, after, value, post);
    assert name == "" ==> pre + before == pre;
  }

  lemma HeaderItem(pre: string, text: string, tail: string, prevName: string, first: bool) returns (item: Item)
    requires IsLead(pre, first) && Delimited(text, "]") && !Continues(pre, prevName)
    ensures item.Header? && Writes(item, prevName, pre + ("[" + text + tail), first)
  {
    var section, over, post := HeaderParts(text, tail);
    item := Header(pre, section, over, post);
    assert "[" + text + tail == "[" + (text + tail);
    assert "[" + (section + over) + "]" + post == "[" + (section + over + "]" + post);
    MarkBeforeHeader(pre, section, over, post, first);
  }

  lemma BareItem(pre: string, body: string, tail: string, prevName: string, first: bool) returns (item: Item)
    requires IsLead(pre, first) && AllBlank(tail) && (first && BOM <= pre + (body + tail) ==> BOM <= pre)
    requires body != "" && Trimmed(body) && body[0] != ';' && body[0] != '#'
    ensures Writes(item, prevName, pre + (body + tail), first)
  {
    if Continues(pre, prevName) {
      item := More(pre, body, tail);
    } else if body[0] == '[' {
      var text := body[1..];
      assert "[" + text == body && (text != "" ==> text[|text| - 1] == body[|body| - 1]);
      if Delimited(text, "]") {
        item := HeaderItem(pre, text, tail, prevName, first);
      } else {
        item := Unclosed(pre, text, tail);
      }
    } else if Delimited(body, "=:") {
      item := SettingItem(pre, body, tail, prevName, first);
    } else {
      item := Junk(pre, body, tail);
    }
  }

  /** The grammar is complete: every line there can be is an item. */
  lemma EveryLine(prevName: string, line: string, first: bool) returns (item: Item)
    ensures Writes(item, prevName, line, first)
  {
    var pre, x := LeadAndText(line, first);
    if x == "" {
      assert pre == line;
      item := Gap(pre);
    } else if x[0] == ';' || x[0] == '#' {
      item := Note(pre, x[0], x[1..]);
    } else {
      var body, tail := BodyAndTail(x);
      item := BareItem(pre, body, tail, prevName, first);
    }
  }

  /** What a line is read as is what the items it can be written as say, and nothing else. */
  lemma ReadAsWritten(prevName: string, line: string, first: bool, meaning: Meaning)
    ensures Classify(prevName, line, first) == meaning <==>
            exists item :: Writes(item, prevName, line, first) && Intent(item) == meaning
  {
    var item := EveryLine(prevName, line, first);
    LineRoundTrip(item, prevName, first);
    forall other | Writes(other, prevName, line, first) ensures Intent(other) == Classify(prevName, line, first) {
      LineRoundTrip(other, prevName, first);
    }
  }
}
