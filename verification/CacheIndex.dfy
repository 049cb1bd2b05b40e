/** The client's table of open descriptors and the per-path open counts kept beside it. */
module CacheIndex {

  datatype FileMeta = FileMeta(path: string, isDirty: bool)

  datatype Index = Index(fdToMeta: map<int, FileMeta>, filepathToFreq: map<string, int>)

  ghost function FdsOf(fds: map<int, FileMeta>, path: string): set<int> {
    set fd | fd in fds && fds[fd].path == path
  }

  lemma SomeMember<T>(s: set<T>) returns (x: T)
    requires s != {}
    ensures x in s
  {
    x :| x in s;
  }

  lemma OpenIffListed(fds: map<int, FileMeta>, path: string)
    ensures FdsOf(fds, path) != {} <==> exists fd :: fd in fds && fds[fd].path == path
  {
    var users := FdsOf(fds, path);
    if users != {} {
      var fd := SomeMember(users);
      assert fds[fd].path == path;
    } else {
      assert forall fd :: fd in fds && fds[fd].path == path ==> fd in users;
    }
  }

  ghost predicate AgreesAt(ix: Index, path: string) {
    var open := FdsOf(ix.fdToMeta, path);
    && (path in ix.filepathToFreq <==> open != {})
    && (path in ix.filepathToFreq ==> ix.filepathToFreq[path] == |open|)
  }

  /** The counts agree with the table: a path has an entry exactly when some descriptor is open on
      it, and the entry is the number of such descriptors. */
  ghost predicate Agrees(ix: Index) {
    forall path :: AgreesAt(ix, path)
  }

  function Opened(ix: Index, fd: int, path: string): Index {
    Index(ix.fdToMeta[fd := FileMeta(path, false)],
          ix.filepathToFreq[path := (if path in ix.filepathToFreq then ix.filepathToFreq[path] else 0) + 1])
  }

  function Dirtied(ix: Index, fd: int): Index {
    if fd in ix.fdToMeta then ix.(fdToMeta := ix.fdToMeta[fd := ix.fdToMeta[fd].(isDirty := true)]) else ix
  }

  function Closed(ix: Index, fd: int): Index {
    if fd !in ix.fdToMeta then ix else
    var path := ix.fdToMeta[fd].path;
    var newFreq := (if path in ix.filepathToFreq then ix.filepathToFreq[path] else 0) - 1;
    Index(ix.fdToMeta - {fd},
          if newFreq == 0 then ix.filepathToFreq - {path} else ix.filepathToFreq[path := newFreq])
  }

  lemma NewOpenAgreesAt(ix: Index, fd: int, path: string, p: string)
    requires AgreesAt(ix, p) && fd !in ix.fdToMeta
    ensures AgreesAt(Opened(ix, fd, path), p)
  {
    assert FdsOf(Opened(ix, fd, path).fdToMeta, p) == FdsOf(ix.fdToMeta, p) + if p == path then {fd} else {};
    assert fd !in FdsOf(ix.fdToMeta, p);
  }

  lemma SecondOpenDisagrees(ix: Index, fd: int, path: string)
    requires fd in ix.fdToMeta && AgreesAt(ix, ix.fdToMeta[fd].path)
    ensures !AgreesAt(Opened(ix, fd, path), ix.fdToMeta[fd].path)
  {
    var q := ix.fdToMeta[fd].path;
    var open := FdsOf(ix.fdToMeta, q);
    assert fd in open;
    assert FdsOf(Opened(ix, fd, path).fdToMeta, q) == if q == path then open else open - {fd};
  }

  /** Registering an open keeps the agreement exactly when the descriptor was not registered already. */
  lemma OpenKeepsAgreement(ix: Index, fd: int, path: string)
    requires Agrees(ix)
    ensures Agrees(Opened(ix, fd, path)) <==> fd !in ix.fdToMeta
  {
    if fd in ix.fdToMeta {
      assert AgreesAt(ix, ix.fdToMeta[fd].path);
      SecondOpenDisagrees(ix, fd, path);
    } else {
      forall p ensures AgreesAt(Opened(ix, fd, path), p) {
        assert AgreesAt(ix, p);
        NewOpenAgreesAt(ix, fd, path, p);
      }
    }
  }

  lemma DirtyKeepsAgreement(ix: Index, fd: int)
    requires Agrees(ix)
    ensures Agrees(Dirtied(ix, fd))
  {
    forall p ensures AgreesAt(Dirtied(ix, fd), p) {
      assert AgreesAt(ix, p);
      assert FdsOf(Dirtied(ix, fd).fdToMeta, p) == FdsOf(ix.fdToMeta, p);
    }
  }

  lemma CloseKeepsAgreement(ix: Index, fd: int)
    requires Agrees(ix)
    ensures Agrees(Closed(ix, fd))
  {
    forall p ensures AgreesAt(Closed(ix, fd), p) {
      assert AgreesAt(ix, p);
      var here := fd in ix.fdToMeta && ix.fdToMeta[fd].path == p;
      assert here ==> fd in FdsOf(ix.fdToMeta, p);
      var left := FdsOf(Closed(ix, fd).fdToMeta, p);
      assert left == FdsOf(ix.fdToMeta, p) - if here then {fd} else {};
      assert here ==> |left| == ix.filepathToFreq[p] - 1;
      assert |left| == 0 <==> left == {};
    }
  }

  datatype Registration = OnOpen(fd: int, path: string) | OnDirty(fd: int) | OnClose(fd: int)

  function Run(ix: Index, events: seq<Registration>): Index {
    if events == [] then ix else
    var before := Run(ix, events[..|events| - 1]);
    match events[|events| - 1]
    case OnOpen(fd, path) => Opened(before, fd, path)
    case OnDirty(fd) => Dirtied(before, fd)
    case OnClose(fd) => Closed(before, fd)
  }

  /** The operating system never returns a descriptor that is still open. */
  ghost predicate FreshDescriptors(ix: Index, events: seq<Registration>) {
    forall i :: 0 <= i < |events| && events[i].OnOpen? ==> events[i].fd !in Run(ix, events[..i]).fdToMeta
  }

  /** In every run of registrations the counts agree with the table. */
  lemma {:induction false} EveryRunAgrees(events: seq<Registration>)
    requires FreshDescriptors(Index(map[], map[]), events)
    ensures Agrees(Run(Index(map[], map[]), events))
  {
    var empty := Index(map[], map[]);
    if events == [] {
      forall p ensures AgreesAt(empty, p) {
        assert FdsOf(empty.fdToMeta, p) == {};
      }
    } else {
      var n := |events| - 1;
      forall i | 0 <= i < n && events[..n][i].OnOpen?
        ensures events[..n][i].fd !in Run(empty, events[..n][..i]).fdToMeta
      {
        assert events[..n][..i] == events[..i];
      }
      EveryRunAgrees(events[..n]);
      var before := Run(empty, events[..n]);
      match events[n]
      case OnOpen(fd, path) => OpenKeepsAgreement(before, fd, path);
      case OnDirty(fd) => DirtyKeepsAgreement(before, fd);
      case OnClose(fd) => CloseKeepsAgreement(before, fd);
    }
  }

  /** Event `i` is the open that registered `fd`, and nothing closed or reopened `fd` since. */
  ghost predicate OpenedLast(events: seq<Registration>, fd: int, i: nat) {
    && i < |events| && events[i].OnOpen? && events[i].fd == fd
    && forall j :: i < j < |events| ==> events[j].OnDirty? || events[j].fd != fd
  }

  /** Event `i` marked `fd` dirty, and `fd` was not opened again since. */
  ghost predicate DirtiedLast(events: seq<Registration>, fd: int, i: nat) {
    && i < |events| && events[i] == OnDirty(fd)
    && forall j :: i < j < |events| ==> !events[j].OnOpen? || events[j].fd != fd
  }

  lemma LastEventsBefore(events: seq<Registration>, e: Registration, fd: int, i: nat)
    requires i < |events|
    ensures OpenedLast(events + [e], fd, i) <==> OpenedLast(events, fd, i) && (e.OnDirty? || e.fd != fd)
    ensures DirtiedLast(events + [e], fd, i) <==> DirtiedLast(events, fd, i) && (!e.OnOpen? || e.fd != fd)
  {
    var more := events + [e];
    assert forall j :: 0 <= j < |events| ==> more[j] == events[j];
    assert more[|events|] == e;
  }

  /** A descriptor is in the table exactly when an open of it was neither closed nor repeated since,
      under that open's path; it is dirty exactly when it was marked after its last open. */
  ghost predicate Remembers(table: map<int, FileMeta>, events: seq<Registration>, fd: int) {
    && (fd in table <==> exists i: nat :: OpenedLast(events, fd, i))
    && (forall i: nat :: OpenedLast(events, fd, i) ==> fd in table && table[fd].path == events[i].path)
    && (fd in table ==> (table[fd].isDirty <==> exists i: nat :: DirtiedLast(events, fd, i)))
  }

  lemma OpenIsRemembered(ix: Index, before: seq<Registration>, e: Registration, fd: int)
    requires e.OnOpen? && e.fd == fd
    ensures Remembers(Opened(ix, fd, e.path).fdToMeta, before + [e], fd)
  {
    var events := before + [e];
    assert OpenedLast(events, fd, |before|);
    forall i: nat ensures !DirtiedLast(events, fd, i) && (OpenedLast(events, fd, i) ==> i == |before|) {
      if i < |before| { LastEventsBefore(before, e, fd, i); }
    }
  }

  lemma CloseIsRemembered(ix: Index, before: seq<Registration>, e: Registration, fd: int)
    requires e == OnClose(fd)
    ensures Remembers(Closed(ix, fd).fdToMeta, before + [e], fd)
  {
    forall i: nat ensures !OpenedLast(before + [e], fd, i) {
      if i < |before| { LastEventsBefore(before, e, fd, i); }
    }
  }

  lemma DirtIsRemembered(ix: Index, before: seq<Registration>, e: Registration, fd: int)
    requires e == OnDirty(fd) && Remembers(ix.fdToMeta, before, fd)
    ensures Remembers(Dirtied(ix, fd).fdToMeta, before + [e], fd)
  {
    var events := before + [e];
    assert DirtiedLast(events, fd, |before|);
    OpensStay(before, e, fd);
  }

  /** An event that does not open or close `fd` leaves its last open where it was. */
  lemma OpensStay(before: seq<Registration>, e: Registration, fd: int)
    requires e.OnDirty? || e.fd != fd
    ensures forall i: nat :: OpenedLast(before + [e], fd, i) <==> OpenedLast(before, fd, i)
    ensures forall i: nat :: OpenedLast(before, fd, i) ==> (before + [e])[i] == before[i]
  {
    forall i: nat ensures OpenedLast(before + [e], fd, i) <==> OpenedLast(before, fd, i) {
      if i < |before| { LastEventsBefore(before, e, fd, i); }
    }
  }

  lemma OthersAreRemembered(table: map<int, FileMeta>, table': map<int, FileMeta>, before: seq<Registration>,
          e: Registration, fd: int)
    requires e.fd != fd && Remembers(table, before, fd)
    requires (fd in table' <==> fd in table) && (fd in table ==> table'[fd] == table[fd])
    ensures Remembers(table', before + [e], fd)
  {
    OpensStay(before, e, fd);
    forall i: nat ensures DirtiedLast(before + [e], fd, i) <==> DirtiedLast(before, fd, i) {
      if i < |before| { LastEventsBefore(before, e, fd, i); }
    }
  }

  /** What the table remembers of any run: marks from before a close or a reopen are forgotten. */
  lemma {:induction false} TableHistory(events: seq<Registration>, fd: int)
    ensures Remembers(Run(Index(map[], map[]), events).fdToMeta, events, fd)
  {
    if events != [] {
      var before, e := events[..|events| - 1], events[|events| - 1];
      var ix := Run(Index(map[], map[]), before);
      TableHistory(before, fd);
      assert before + [e] == events;
      if e.fd != fd {
        OthersAreRemembered(ix.fdToMeta, Run(Index(map[], map[]), events).fdToMeta, before, e, fd);
      } else {
        match e
        case OnOpen(_, _) => OpenIsRemembered(ix, before, e, fd);
        case OnDirty(_) => DirtIsRemembered(ix, before, e, fd);
        case OnClose(_) => CloseIsRemembered(ix, before, e, fd);
      }
    }
  }

  /** The cache manager: two maps, updated under one lock. */
  class CacheManager {
    var fdToMeta: map<int, FileMeta>
    var filepathToFreq: map<string, int>

    ghost function State(): Index
      reads this
    {
      Index(fdToMeta, filepathToFreq)
    }

    constructor ()
      ensures State() == Index(map[], map[]) && Agrees(State())
    {
      fdToMeta, filepathToFreq := map[], map[];
      new;
      EveryRunAgrees([]);
    }

    method RegisterFileDirty(fd: int)
      modifies this
      ensures State() == Dirtied(old(State()), fd)
      ensures old(Agrees(State())) ==> Agrees(State())
    {
      ghost var was := State();
      if fd in fdToMeta {
        fdToMeta := fdToMeta[fd := fdToMeta[fd].(isDirty := true)];
      }
      if Agrees(was) { DirtyKeepsAgreement(was, fd); }
    }

    method RegisterFileClose(fd: int)
      modifies this
      ensures State() == Closed(old(State()), fd)
      ensures old(Agrees(State())) ==> Agrees(State())
    {
      ghost var was := State();
      if Agrees(was) { CloseKeepsAgreement(was, fd); }
      if fd !in fdToMeta {
        return;
      }
      var path := fdToMeta[fd].path;
      fdToMeta := fdToMeta - {fd};
      // operator[] of the map inserts a zero count when the path has none
      var newFreq := (if path in filepathToFreq then filepathToFreq[path] else 0) - 1;
      filepathToFreq := filepathToFreq[path := newFreq];
      if newFreq == 0 {
        filepathToFreq := filepathToFreq - {path};
      }
    }

    method RegisterFileOpen(fd: int, path: string)
      modifies this
      ensures State() == Opened(old(State()), fd, path)
      ensures old(Agrees(State())) && fd !in old(fdToMeta) ==> Agrees(State())
    {
      ghost var was := State();
      if Agrees(was) { OpenKeepsAgreement(was, fd, path); }
      if path !in filepathToFreq {
        filepathToFreq := filepathToFreq[path := 0];
      }
      fdToMeta := fdToMeta[fd := FileMeta(path, false)];
      filepathToFreq := filepathToFreq[path := filepathToFreq[path] + 1];
    }

    /** The count lookup answers what a scan of the descriptor table would answer. */
    method IsFileOpen(path: string) returns (open: bool)
      requires Agrees(State())
      ensures open <==> exists fd :: fd in fdToMeta && fdToMeta[fd].path == path
    {
      open := path in filepathToFreq;
      assert AgreesAt(State(), path);
      OpenIffListed(fdToMeta, path);
    }

    method IsFileDirty(fd: int) returns (dirty: bool)
      ensures dirty <==> fd in fdToMeta && fdToMeta[fd].isDirty
    {
      dirty := fd in fdToMeta && fdToMeta[fd].isDirty;
    }
  }
}
