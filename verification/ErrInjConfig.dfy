/** The error injection settings the parser's handler collects, one entry for each recognised section. */
module ErrInjConfig {
  import opened IniText
  import opened IniParser
  import opened Options
  import IniGrammar
  import IniRoundTrip

  const NAMES: seq<string> := [
    "errinj_errno", "errinj_kill_caller", "errinj_noop", "errinj_slowdown",
    "errinj_wow_reorder_local", "errinj_wow_reorder_server", "errinj_wow_delay", "errinj_wow_crash"
  ]

  /** The injections, in the order of the source's enumeration. */
  datatype InjectionType =
    ERRNO | KILL_CALLER | NOOP | SLOWDOWN | WOW_REORDER_LOCAL | WOW_REORDER_SERVER | WOW_DELAY | WOW_CRASH

  function Ordinal(t: InjectionType): nat {
    match t
    case ERRNO => 0
    case KILL_CALLER => 1
    case NOOP => 2
    case SLOWDOWN => 3
    case WOW_REORDER_LOCAL => 4
    case WOW_REORDER_SERVER => 5
    case WOW_DELAY => 6
    case WOW_CRASH => 7
  }

  /** What a configuration file calls them. */
  function SectionOf(t: InjectionType): string {
    match t
    case ERRNO => "errinj_errno"
    case KILL_CALLER => "errinj_kill_caller"
    case NOOP => "errinj_noop"
    case SLOWDOWN => "errinj_slowdown"
    case WOW_REORDER_LOCAL => "errinj_wow_reorder_local"
    case WOW_REORDER_SERVER => "errinj_wow_reorder_server"
    case WOW_DELAY => "errinj_wow_delay"
    case WOW_CRASH => "errinj_wow_crash"
  }

  /** The last position of a name in a list, or -1. */
  function TypeIn(names: seq<string>, name: string): (idx: int)
    ensures -1 <= idx < |names| && (idx >= 0 ==> names[idx] == name)
    ensures forall k :: idx < k < |names| ==> names[k] != name
  {
    if names == [] then -1
    else if names[|names| - 1] == name then |names| - 1
    else TypeIn(names[..|names| - 1], name)
  }

  function TypeOf(name: string): int {
    TypeIn(NAMES, name)
  }

  lemma TypeInIs(names: seq<string>, name: string, idx: int)
    requires -1 <= idx < |names| && (idx >= 0 ==> names[idx] == name)
    requires forall k :: idx < k < |names| ==> names[k] != name
    ensures TypeIn(names, name) == idx
  {
  }

  lemma DistinctNames(i: nat, j: nat)
    requires i < j < |NAMES|
    ensures NAMES[i] != NAMES[j]
  {
    assert |NAMES[0]| == 12 && |NAMES[1]| == 18 && |NAMES[2]| == 11 && |NAMES[3]| == 15;
    assert |NAMES[4]| == 24 && |NAMES[5]| == 25 && |NAMES[6]| == 16 && |NAMES[7]| == 16;
    assert NAMES[6][11] == 'd' && NAMES[7][11] == 'c';
  }

  /** Each type has exactly one name. */
  lemma TypeOfName(name: string, idx: nat)
    requires idx < |NAMES|
    ensures TypeOf(name) == idx <==> name == NAMES[idx]
  {
    if name == NAMES[idx] && TypeOf(name) > idx { DistinctNames(idx, TypeOf(name)); }
  }

  /** The name table and the enumeration go together: a section is recognised as a type exactly when it is
      that type's section, and every position in the table is some type's. */
  lemma SectionsAreTypes(name: string, t: InjectionType)
    ensures TypeOf(name) == Ordinal(t) <==> name == SectionOf(t)
    ensures TypeOf(name) == -1 <==> forall u :: name != SectionOf(u)
  {
    TypeOfName(name, Ordinal(t));
    forall u: InjectionType ensures Ordinal(u) < |NAMES| && SectionOf(u) == NAMES[Ordinal(u)] {}
    if TypeOf(name) >= 0 { EveryOrdinal(TypeOf(name)); }
  }

  lemma EveryOrdinal(idx: nat)
    requires idx < |NAMES|
    ensures exists u :: Ordinal(u) == idx
  {
    assert Ordinal(ERRNO) == 0 && Ordinal(KILL_CALLER) == 1 && Ordinal(NOOP) == 2 && Ordinal(SLOWDOWN) == 3;
    assert Ordinal(WOW_REORDER_LOCAL) == 4 && Ordinal(WOW_REORDER_SERVER) == 5;
    assert Ordinal(WOW_DELAY) == 6 && Ordinal(WOW_CRASH) == 7;
  }

  method ErrinjTypeByName(name: string) returns (idx: int)
    ensures idx == TypeOf(name)
  {
    idx := -1;
    var i := 0;
    while i < |NAMES|
      invariant i <= |NAMES| && -1 <= idx < i && (idx >= 0 ==> NAMES[idx] == name)
      invariant forall k :: idx < k < i ==> NAMES[k] != name
    {
      if NAMES[i] == name { idx := i; }
      i := i + 1;
    }
    TypeInIs(NAMES, name, idx);
  }

  // ---------------------------------------------------------------------------------------------
  // Numbers
  // ---------------------------------------------------------------------------------------------

  const LONG_MAX := 0x7FFF_FFFF_FFFF_FFFF
  const UINT_RANGE := 0x1_0000_0000

  predicate IsDigit(c: char) {
    '0' <= c <= '9'
  }

  function DigitValue(c: char): nat
    requires IsDigit(c)
  {
    c as int - '0' as int
  }

  /** The number a string of digits starts with, after those already read. */
  function Leading(s: string, read: nat): nat {
    if s != "" && IsDigit(s[0]) then Leading(s[1..], 10 * read + DigitValue(s[0])) else read
  }

  function Clamped(n: int): int {
    if n > LONG_MAX then LONG_MAX else if n < -LONG_MAX - 1 then -LONG_MAX - 1 else n
  }

  /** A sign and a number, or 0. */
  function SignedNumber(t: string): int {
    if t != "" && t[0] == '-' then -(Leading(t[1..], 0) as int)
    else if t != "" && t[0] == '+' then Leading(t[1..], 0)
    else Leading(t, 0)
  }

  /** atoi of the C library, a long cut to an int, stored in an unsigned int. */
  function Atoi(s: string): (n: nat)
    ensures n < UINT_RANGE
  {
    Clamped(SignedNumber(s[Blanks(s)..])) % UINT_RANGE
  }

  function Decimal(n: nat): (s: string)
    ensures s != "" && IsDigit(s[0])
  {
    var digit := ('0' as int + n % 10) as char;
    if n < 10 then [digit] else Decimal(n / 10) + [digit]
  }

  lemma {:induction false} LeadingOfDecimal(n: nat, rest: string)
    ensures Leading(Decimal(n) + rest, 0) == Leading(rest, n)
  {
    var digit := ('0' as int + n % 10) as char;
    assert ([digit] + rest)[1..] == rest;
    if n < 10 {
      assert Decimal(n) + rest == [digit] + rest;
    } else {
      LeadingOfDecimal(n / 10, [digit] + rest);
      assert Decimal(n) + rest == Decimal(n / 10) + ([digit] + rest);
    }
  }

  lemma SignedDecimal(sign: string, n: nat, rest: string)
    requires sign == "" || sign == "+" || sign == "-"
    requires rest == "" || !IsDigit(rest[0])
    ensures SignedNumber(sign + Decimal(n) + rest) == if sign == "-" then -(n as int) else n
  {
    var t := sign + Decimal(n) + rest;
    LeadingOfDecimal(n, rest);
    if sign == "" {
      assert t == Decimal(n) + rest;
      assert t[0] == Decimal(n)[0];
    } else {
      assert t[1..] == Decimal(n) + rest;
    }
  }

  /** With blanks and a sign before it a number is held at the ends of long and stored modulo 2^32, as two's
      complement when it is negative. */
  lemma AtoiOfText(blanks: string, sign: string, n: nat, rest: string)
    requires forall k :: 0 <= k < |blanks| ==> IsSpace(blanks[k])
    requires sign == "" || sign == "+" || sign == "-"
    requires rest == "" || !IsDigit(rest[0])
    ensures Atoi(blanks + (sign + Decimal(n) + rest)) ==
            (if sign == "-" then -(if n > LONG_MAX + 1 then LONG_MAX + 1 else n)
             else if n > LONG_MAX then LONG_MAX else n) % UINT_RANGE
  {
    var t := sign + Decimal(n) + rest;
    var s := blanks + t;
    assert !IsSpace(t[0]) by { assert t[0] == if sign == "" then Decimal(n)[0] else sign[0]; }
    BlanksIs(s, |blanks|);
    assert s[|blanks|..] == t;
    SignedDecimal(sign, n, rest);
  }

  lemma AtoiOfNoNumber(s: string)
    requires var t := s[Blanks(s)..]; t == "" || (!IsDigit(t[0]) && t[0] != '-' && t[0] != '+')
    ensures Atoi(s) == 0
  {
  }

  lemma NothingBefore(digits: string, rest: string)
    ensures "" + ("" + digits + rest) == digits + rest
  {
  }

  /** A plain number is stored modulo 2^32, held at the largest long first; what follows it is ignored. */
  lemma AtoiOfDecimal(n: nat, rest: string)
    requires rest == "" || !IsDigit(rest[0])
    ensures Atoi(Decimal(n) + rest) == (if n > LONG_MAX then LONG_MAX else n) % UINT_RANGE
  {
    AtoiOfText("", "", n, rest);
    NothingBefore(Decimal(n), rest);
  }

  // ---------------------------------------------------------------------------------------------
  // The handler
  // ---------------------------------------------------------------------------------------------

  datatype Injection = Injection(
    kind: nat, pathRegexp: Option<string>, opRegexp: Option<string>, probability: nat, duration: nat)

  predicate KnownKey(key: string) {
    key == "path_regexp" || key == "op_regexp" || key == "probability" || key == "duration"
  }

  function WithOption(entry: Injection, key: string, value: string): Injection {
    if key == "path_regexp" then entry.(pathRegexp := Some(value))
    else if key == "op_regexp" then entry.(opRegexp := Some(value))
    else if key == "probability" then entry.(probability := Atoi(value))
    else if key == "duration" then entry.(duration := Atoi(value))
    else entry
  }

  /** The options that are known are exactly those that can change an entry. */
  lemma KnownKeysMatter(key: string)
    ensures KnownKey(key) <==> exists entry: Injection, value: string :: WithOption(entry, key, value) != entry
  {
    var unset := Injection(0, None, None, 7, 7);
    if KnownKey(key) { assert WithOption(unset, key, "") != unset; }
  }

  /** The first entry of a type, or the length of the list. */
  function IndexOf(list: seq<Injection>, kind: nat): (i: nat)
    ensures i <= |list| && (i < |list| ==> list[i].kind == kind)
    ensures forall k :: 0 <= k < i ==> list[k].kind != kind
  {
    if list == [] || list[0].kind == kind then 0 else 1 + IndexOf(list[1..], kind)
  }

  function Unset(kind: nat): Injection {
    Injection(kind, None, None, 0, 0)
  }

  function Handled(list: seq<Injection>, call: Call): seq<Injection> {
    var kind := TypeOf(call.section);
    if kind == -1 then list
    else
      var i := IndexOf(list, kind);
      if i < |list| then list[i := WithOption(list[i], call.name, call.value)]
      else list + [WithOption(Unset(kind), call.name, call.value)]
  }

  /** What the handler returns; the parser takes anything but 0 for success. */
  function Answer(call: Call): int {
    if TypeOf(call.section) == -1 then -1 else if KnownKey(call.name) then 1 else 0
  }

  /** A section that names no type is refused with -1, an option that is none of the four with 0. */
  lemma AnswerMeans(call: Call)
    ensures Answer(call) == -1 <==> call.section !in NAMES
    ensures Answer(call) == 0 <==>
            call.section in NAMES && call.name !in ["path_regexp", "op_regexp", "probability", "duration"]
    ensures Answer(call) in [-1, 0, 1]
  {
    if call.section in NAMES {
      var k :| 0 <= k < |NAMES| && NAMES[k] == call.section;
    }
  }

  class ErrinjConf {
    var kind: nat
    var pathRegexp: Option<string>
    var opRegexp: Option<string>
    var probability: nat
    var duration: nat

    ghost function Value(): Injection
      reads this
    {
      Injection(kind, pathRegexp, opRegexp, probability, duration)
    }

    constructor (kind: nat)
      ensures Value() == Unset(kind)
    {
      this.kind := kind;
      pathRegexp, opRegexp, probability, duration := None, None, 0, 0;
    }

    method SetOption(key: string, value: string) returns (known: bool)
      modifies this
      ensures Value() == WithOption(old(Value()), key, value) && known == KnownKey(key)
    {
      known := true;
      if key == "path_regexp" {
        pathRegexp := Some(value);
      } else if key == "op_regexp" {
        opRegexp := Some(value);
      } else if key == "probability" {
        probability := Atoi(value);
      } else if key == "duration" {
        duration := Atoi(value);
      } else {
        known := false;
      }
    }
  }

  /** The tail queue of entries. */
  class ErrInjQueue {
    var entries: seq<ErrinjConf>
    ghost var contents: seq<Injection>

    ghost predicate Valid()
      reads this, entries
    {
      && |contents| == |entries|
      && (forall i :: 0 <= i < |entries| ==> entries[i].Value() == contents[i])
      && (forall i, j :: 0 <= i < j < |entries| ==> entries[i] != entries[j])
    }

    constructor ()
      ensures Valid() && contents == [] && entries == []
    {
      entries, contents := [], [];
    }

    method Find(kind: nat) returns (i: nat)
      requires Valid()
      ensures i == IndexOf(contents, kind)
    {
      i := 0;
      while i < |entries| && entries[i].kind != kind
        invariant i <= |entries| && forall k :: 0 <= k < i ==> contents[k].kind != kind
      {
        i := i + 1;
      }
      IndexOfIs(contents, kind, i);
    }

    /** Record one option; its type's entry is made when there is none yet, even for an option that is
        not known. */
    method ConfOptionHandler(section: string, key: string, value: string) returns (ret: int)
      requires Valid()
      modifies this, entries
      ensures Valid() && fresh(set e | e in entries && e !in old(entries))
      ensures contents == Handled(old(contents), Call(section, key, value)) && ret == Answer(Call(section, key, value))
    {
      var curType := ErrinjTypeByName(section);
      if curType == -1 { return -1; }
      var i := Find(curType);
      if i == |entries| {
        var err := new ErrinjConf(curType);
        entries, contents := entries + [err], contents + [err.Value()];
      }
      var known := entries[i].SetOption(key, value);
      contents := contents[i := entries[i].Value()];
      ret := if known then 1 else 0;
    }
  }

  lemma IndexOfIs(list: seq<Injection>, kind: nat, i: nat)
    requires i <= |list| && (i < |list| ==> list[i].kind == kind) && forall k :: 0 <= k < i ==> list[k].kind != kind
    ensures IndexOf(list, kind) == i
  {
  }

  // ---------------------------------------------------------------------------------------------
  // All calls
  // ---------------------------------------------------------------------------------------------

  function Config(calls: seq<Call>): seq<Injection> {
    if calls == [] then [] else Handled(Config(calls[..|calls| - 1]), calls[|calls| - 1])
  }

  /** The first call for a type, or the number of calls. */
  function FirstCall(calls: seq<Call>, kind: nat): (k: nat)
    ensures k <= |calls| && (k < |calls| ==> TypeOf(calls[k].section) == kind)
    ensures forall j :: 0 <= j < k ==> TypeOf(calls[j].section) != kind
  {
    if calls == [] then 0
    else
      var n := |calls| - 1;
      var k := FirstCall(calls[..n], kind);
      if k < n || TypeOf(calls[n].section) == kind then k else |calls|
  }

  /** The value last given to a type's option. */
  function LastGiven(calls: seq<Call>, kind: nat, key: string): Option<string> {
    if calls == [] then None
    else
      var last := calls[|calls| - 1];
      if TypeOf(last.section) == kind && last.name == key then Some(last.value)
      else LastGiven(calls[..|calls| - 1], kind, key)
  }

  function NumberOf(given: Option<string>): nat {
    match given case None => 0 case Some(value) => Atoi(value)
  }

  predicate Listed(list: seq<Injection>, kind: int) {
    kind >= 0 && IndexOf(list, kind) < |list|
  }

  /** One entry for each type called for, in the order of its first call. */
  predicate InOrder(list: seq<Injection>, calls: seq<Call>) {
    && (forall i :: 0 <= i < |list| ==> FirstCall(calls, list[i].kind) < |calls|)
    && (forall i, j :: 0 <= i < j < |list| ==> FirstCall(calls, list[i].kind) < FirstCall(calls, list[j].kind))
    && (forall k :: 0 <= k < |calls| ==> TypeOf(calls[k].section) == -1 || Listed(list, TypeOf(calls[k].section)))
  }

  predicate LastValues(entry: Injection, calls: seq<Call>) {
    && entry.pathRegexp == LastGiven(calls, entry.kind, "path_regexp")
    && entry.opRegexp == LastGiven(calls, entry.kind, "op_regexp")
    && entry.probability == NumberOf(LastGiven(calls, entry.kind, "probability"))
    && entry.duration == NumberOf(LastGiven(calls, entry.kind, "duration"))
  }

  lemma FirstCallLater(calls: seq<Call>, call: Call, kind: nat)
    ensures FirstCall(calls + [call], kind) ==
            if FirstCall(calls, kind) < |calls| || TypeOf(call.section) == kind then FirstCall(calls, kind)
            else |calls| + 1
  {
    assert (calls + [call])[..|calls|] == calls;
  }

  /** Handling a call keeps the entries' types in place and adds at most its own. */
  lemma KindsKept(list: seq<Injection>, call: Call)
    ensures var list' := Handled(list, call);
            var kind := TypeOf(call.section);
            |list'| == |list| + (if kind >= 0 && !Listed(list, kind) then 1 else 0)
            && (forall i :: 0 <= i < |list| ==> list'[i].kind == list[i].kind)
            && (|list'| > |list| ==> list'[|list|].kind == kind)
  {
  }

  lemma ListedStill(list: seq<Injection>, list': seq<Injection>, kind: int)
    requires |list| <= |list'| && forall i :: 0 <= i < |list| ==> list'[i].kind == list[i].kind
    ensures Listed(list, kind) ==> Listed(list', kind)
  {
    if Listed(list, kind) { assert list'[IndexOf(list, kind)].kind == kind; }
  }

  /** The first calls of the entries are where they were, and a new entry's is the call itself. */
  lemma FirstCallsKept(list: seq<Injection>, calls: seq<Call>, call: Call)
    requires InOrder(list, calls)
    ensures var list' := Handled(list, call);
            |list| <= |list'| <= |list| + 1
            && (forall i :: 0 <= i < |list| ==>
                  FirstCall(calls + [call], list'[i].kind) == FirstCall(calls, list[i].kind) < |calls|)
            && (|list'| > |list| ==> FirstCall(calls + [call], list'[|list|].kind) == |calls|)
  {
    var kind := TypeOf(call.section);
    KindsKept(list, call);
    forall i | 0 <= i < |list|
      ensures FirstCall(calls + [call], Handled(list, call)[i].kind) == FirstCall(calls, list[i].kind) < |calls|
    {
      FirstCallLater(calls, call, list[i].kind);
    }
    if |Handled(list, call)| > |list| {
      NoCallYet(list, calls, kind);
      FirstCallLater(calls, call, kind);
    }
  }

  lemma OrderKept(list: seq<Injection>, calls: seq<Call>, call: Call)
    requires InOrder(list, calls)
    ensures InOrder(Handled(list, call), calls + [call])
  {
    FirstCallsKept(list, calls, call);
    AllListed(list, Handled(list, call), calls, call);
  }

  lemma AllListed(list: seq<Injection>, list': seq<Injection>, calls: seq<Call>, call: Call)
    requires InOrder(list, calls) && list' == Handled(list, call)
    ensures var calls' := calls + [call];
            forall k :: 0 <= k < |calls'| ==>
              TypeOf(calls'[k].section) == -1 || Listed(list', TypeOf(calls'[k].section))
  {
    var calls' := calls + [call];
    KindsKept(list, call);
    forall k | 0 <= k < |calls'| ensures TypeOf(calls'[k].section) == -1 || Listed(list', TypeOf(calls'[k].section)) {
      ListedStill(list, list', TypeOf(calls'[k].section));
      if k < |calls| { assert calls'[k] == calls[k]; }
    }
  }

  lemma NoCallYet(list: seq<Injection>, calls: seq<Call>, kind: nat)
    requires InOrder(list, calls) && IndexOf(list, kind) == |list|
    ensures FirstCall(calls, kind) == |calls|
  {
  }

  lemma ValuesKept(entry: Injection, calls: seq<Call>, call: Call)
    requires LastValues(entry, calls)
    ensures TypeOf(call.section) != entry.kind ==> LastValues(entry, calls + [call])
    ensures TypeOf(call.section) == entry.kind ==> LastValues(WithOption(entry, call.name, call.value), calls + [call])
  {
    assert (calls + [call])[..|calls|] == calls;
  }

  lemma {:induction false} NothingGiven(calls: seq<Call>, kind: nat, key: string)
    requires FirstCall(calls, kind) == |calls|
    ensures LastGiven(calls, kind, key) == None
  {
    if calls != [] { NothingGiven(calls[..|calls| - 1], kind, key); }
  }

  lemma UnsetValues(calls: seq<Call>, kind: nat)
    requires FirstCall(calls, kind) == |calls|
    ensures LastValues(Unset(kind), calls)
  {
    NothingGiven(calls, kind, "path_regexp");
    NothingGiven(calls, kind, "op_regexp");
    NothingGiven(calls, kind, "probability");
    NothingGiven(calls, kind, "duration");
  }

  /** Configuration fold: the list has one entry for each recognised section, in order of first
      appearance, and each field holds the value last given for that section and option. */
  lemma {:induction false} ConfigurationFold(calls: seq<Call>)
    ensures InOrder(Config(calls), calls)
    ensures forall i :: 0 <= i < |Config(calls)| ==> LastValues(Config(calls)[i], calls)
  {
    if calls != [] {
      var n := |calls| - 1;
      var before, call := calls[..n], calls[n];
      ConfigurationFold(before);
      assert before + [call] == calls;
      OrderKept(Config(before), before, call);
      HandledValues(Config(before), before, call);
    }
  }

  lemma HandledValues(list: seq<Injection>, calls: seq<Call>, call: Call)
    requires InOrder(list, calls) && forall i :: 0 <= i < |list| ==> LastValues(list[i], calls)
    ensures forall i :: 0 <= i < |Handled(list, call)| ==> LastValues(Handled(list, call)[i], calls + [call])
  {
    var kind := TypeOf(call.section);
    var at := if kind >= 0 then IndexOf(list, kind) else |list|;
    forall i | 0 <= i < |list| ensures LastValues(Handled(list, call)[i], calls + [call]) {
      ValuesKept(list[i], calls, call);
      if i != at { OtherKind(list, calls, i, at, kind); }
    }
    if kind >= 0 && at == |list| {
      NoCallYet(list, calls, kind);
      UnsetValues(calls, kind);
      ValuesKept(Unset(kind), calls, call);
    }
  }

  lemma OtherKind(list: seq<Injection>, calls: seq<Call>, i: nat, at: nat, kind: int)
    requires InOrder(list, calls) && i < |list| && i != at && at == if kind >= 0 then IndexOf(list, kind) else |list|
    ensures list[i].kind != kind
  {
    if at < i && at < |list| {
      assert FirstCall(calls, list[at].kind) < FirstCall(calls, list[i].kind);
    }
  }

  /** The calls of recognised sections. */
  function Recognised(calls: seq<Call>): seq<Call> {
    if calls == [] then []
    else
      var last := calls[|calls| - 1];
      Recognised(calls[..|calls| - 1]) + if TypeOf(last.section) == -1 then [] else [last]
  }

  /** Sections that are not recognised leave no trace. */
  lemma {:induction false} UnrecognisedIgnored(calls: seq<Call>)
    ensures Config(Recognised(calls)) == Config(calls)
  {
    if calls != [] {
      var before, last := calls[..|calls| - 1], calls[|calls| - 1];
      UnrecognisedIgnored(before);
      if TypeOf(last.section) != -1 {
        assert Recognised(calls)[..|Recognised(calls)| - 1] == Recognised(before);
      } else {
        assert Recognised(calls) == Recognised(before);
      }
    }
  }

  // ---------------------------------------------------------------------------------------------
  // The configuration file
  // ---------------------------------------------------------------------------------------------

  const ANSWER: Handler := (history, call) => Answer(call)

  datatype File = Missing | Unreadable | Readable(text: string)

  /** The list config_init returns: empty without a file, none when it cannot be opened. */
  function ConfigInit(file: File): Option<seq<Injection>> {
    match file
    case Missing => Some([])
    case Unreadable => None
    case Readable(text) => Some(Config(ParseString(text, ANSWER).calls))
  }

  /** Lines in error, wherever they are and whatever number the parser returns for them, change nothing
      about the entries the other lines make. */
  lemma ErrorsKeepConfig(text: string, handler: Handler)
    ensures ConfigInit(Readable(text)) == Some(Config(ParseString(text, handler).calls))
  {
    ErrorsChangeNothing(Pieces(text), Classify, ANSWER, handler);
  }

  /** From a configuration written with any layout to the list: the triples are folded in order, and the
      parser reports an error exactly when a line is malformed or a recognised section has an option that is
      not known. */
  lemma ConfigOfPrinted(items: seq<IniGrammar.Item>)
    requires IniRoundTrip.WellFormed(items)
    ensures var calls := IniRoundTrip.CallsOf(items);
            var text := IniRoundTrip.PrintAll(items);
            ConfigInit(Readable(text)) == Some(Config(calls))
            && (ParseString(text, ANSWER).error == 0 <==>
                (forall k :: 0 <= k < |items| ==> !IniRoundTrip.Faulty(items[k])) &&
                forall k :: 0 <= k < |calls| && TypeOf(calls[k].section) >= 0 ==> KnownKey(calls[k].name))
  {
    IniRoundTrip.RoundTrip(items, ANSWER);
    IniRoundTrip.NoError(items, ANSWER);
  }
}
