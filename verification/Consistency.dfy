/** The whole-file cache protocol: open fetches the newer copy, close writes dirty files back. */
module Consistency {
  import opened FileBytes
  import opened CacheIndex
  import opened Mount
  import opened ModTime

  datatype File = File(data: Bytes, mtime: nat)

  type Store = map<string, File>

  /** One client: its cache directory and its table of open descriptors. */
  datatype Client = Client(cache: Store, index: Index)

  /** What one client's operation can see and change. */
  datatype Site = Site(server: Store, client: Client)

  datatype Flags = Flags(creat: bool, excl: bool, trunc: bool)

  /** What becomes of a downloaded file: saved whole; saved only in part, because a read or write came
      short unnoticed; or not saved, because the cache file cannot be opened. */
  datatype Saved = WHOLE | PART(bytes: nat) | FAILED

  /** What the environment decides during an open: which calls fail. */
  datatype Faults = Faults(statOk: bool, serverOk: bool, downloadOk: bool, saved: Saved, localOk: bool)

  /** What becomes of one writeback that is attempted: stored; stored with a tail of zeros, because the
      read of the cached file came short unnoticed; refused without effect; stored, whole or not, while
      the reply is lost; the cached file cannot be read; or the final rename fails unnoticed. */
  datatype Outcome =
    Stored | StoredPart(bytes: nat) | Refused | ReplyLost(bytes: nat) | Unreadable | RenameLost

  datatype Source = NONE | LOCAL | REMOTE

  // ---------------------------------------------------------------------------------------------
  // The operations
  // ---------------------------------------------------------------------------------------------

  function Opens(files: Store, path: string, flags: Flags, permitted: bool): bool {
    permitted && if path in files then !(flags.creat && flags.excl) else flags.creat
  }

  /** open(2) on a directory of files. */
  function OpenFile(files: Store, path: string, flags: Flags, permitted: bool, now: nat): Store {
    if Opens(files, path, flags, permitted) && (path !in files || flags.trunc) then files[path := File([], now)]
    else files
  }

  function StatRemote(s: Site, path: string, statOk: bool): bool {
    statOk && RemoveMountPrefix(path) in s.server
  }

  function ShouldFetch(s: Site, path: string, statOk: bool): Source {
    var remote := StatRemote(s, path, statOk);
    if path !in s.client.cache then if remote then REMOTE else NONE
    else if !remote then LOCAL
    else if LocalWins(s.client.cache[path].mtime, s.server[RemoveMountPrefix(path)].mtime) then LOCAL
    else REMOTE
  }

  /** What of a download ends up in the cache. */
  function SavedData(data: Bytes, saved: Saved): Bytes {
    if saved.PART? then data[..Min(saved.bytes, |data|)] else data
  }

  /** The part of an open before the local open: create the file on the server when it is not there,
      fetch it when the server's copy is newer. The flag is false when the open fails here. */
  function Fetch(s: Site, path: string, flags: Flags, now: nat, f: Faults): (Site, bool) {
    var serverPath := RemoveMountPrefix(path);
    var present := StatRemote(s, path, f.statOk);
    var source := ShouldFetch(s, path, f.statOk);
    if !present then
      var onServer := flags.(creat := true);
      (s.(server := OpenFile(s.server, serverPath, onServer, f.serverOk, now)),
       Opens(s.server, serverPath, onServer, f.serverOk))
    else if source == REMOTE then
      if !f.downloadOk then (s, false)
      else if f.saved == FAILED then (s, true)
      else
        var file := File(SavedData(s.server[serverPath].data, f.saved), now);
        (s.(client := s.client.(cache := s.client.cache[path := file])), true)
    else (s, true)
  }

  /** The local open and the registration of its descriptor. */
  function OpenLocal(s: Site, path: string, fd: int, flags: Flags, now: nat, permitted: bool): (Site, bool) {
    if !Opens(s.client.cache, path, flags, permitted) then (s, false)
    else (s.(client := Client(OpenFile(s.client.cache, path, flags, permitted, now),
                              Opened(s.client.index, fd, path))), true)
  }

  function Open(s: Site, path: string, fd: int, flags: Flags, t1: nat, t2: nat, f: Faults): (Site, bool) {
    var (fetched, ok) := Fetch(s, path, flags, t1, f);
    if !ok then (fetched, false) else OpenLocal(fetched, path, fd, flags, t2, f.localOk)
  }

  function CreateOnServer(s: Site, path: string, flags: Flags, now: nat, permitted: bool): (Site, bool) {
    var serverPath := RemoveMountPrefix(path);
    (s.(server := OpenFile(s.server, serverPath, flags, permitted, now)),
     Opens(s.server, serverPath, flags, permitted))
  }

  function Create(s: Site, path: string, fd: int, flags: Flags, t1: nat, t2: nat, f: Faults): (Site, bool) {
    var (created, ok) := CreateOnServer(s, path, flags, t1, f.serverOk);
    if !ok then (created, false) else OpenLocal(created, path, fd, flags, t2, f.localOk)
  }

  /** A write through a descriptor. The descriptor is marked dirty even when the pwrite fails. */
  function Write(s: Site, fd: int, buf: Bytes, offset: nat, now: nat, ok: bool): Site {
    if fd !in s.client.index.fdToMeta then s else
    var path := s.client.index.fdToMeta[fd].path;
    var cache := s.client.cache;
    s.(client := Client(
         if ok && buf != [] && path in cache then cache[path := File(Pwrite(cache[path].data, buf, offset), now)]
         else cache,
         Dirtied(s.client.index, fd)))
  }

  /** A truncate of an open file goes by its path; a failed one marks nothing. */
  function Ftruncate(s: Site, path: string, fd: int, length: nat, now: nat, ok: bool): (Site, bool) {
    var cache := s.client.cache;
    if !ok || path !in cache then (s, false)
    else (s.(client := Client(cache[path := File(Resize(cache[path].data, length), now)],
                              if fd > 0 then Dirtied(s.client.index, fd) else s.client.index)), true)
  }

  function IsDirty(c: Client, fd: int): bool {
    fd in c.index.fdToMeta && c.index.fdToMeta[fd].isDirty
  }

  /** The buffer a writeback sends: as long as the cached file, zero where the read did not get. */
  function SentData(data: Bytes, outcome: Outcome): Bytes {
    if outcome.StoredPart? || outcome.ReplyLost? then Resize(data[..Min(outcome.bytes, |data|)], |data|) else data
  }

  function WritebackToServer(s: Site, path: string, fd: int, now: nat, outcome: Outcome): (Site, bool) {
    if !IsDirty(s.client, fd) then (s, true) else
    var local := s.client.index.fdToMeta[fd].path;
    if local !in s.client.cache || outcome == Unreadable || outcome == RenameLost then (s, true)
    else if outcome == Refused then (s, false)
    else
      var file := File(SentData(s.client.cache[local].data, outcome), now);
      (s.(server := s.server[RemoveMountPrefix(path) := file]), !outcome.ReplyLost?)
  }

  /** Flush writes back but leaves the descriptor open and dirty. */
  function Flush(s: Site, path: string, fd: int, now: nat, outcome: Outcome): (Site, bool) {
    if fd > 0 then WritebackToServer(s, path, fd, now, outcome) else (s, true)
  }

  /** Release writes back and forgets the descriptor; a failed writeback leaves it open. */
  function Release(s: Site, path: string, fd: int, now: nat, outcome: Outcome): (Site, bool) {
    if fd <= 0 then (s, false) else
    var (stored, ok) := WritebackToServer(s, path, fd, now, outcome);
    if !ok then (stored, false)
    else (stored.(client := stored.client.(index := Closed(stored.client.index, fd))), true)
  }

  // ---------------------------------------------------------------------------------------------
  // Coherence of one client with the server
  // ---------------------------------------------------------------------------------------------

  ghost predicate HasDirty(c: Client, path: string) {
    exists fd :: IsDirty(c, fd) && c.index.fdToMeta[fd].path == path
  }

  /** A clean cached copy that would win the contest holds the server's contents. */
  ghost predicate CoherentAt(s: Site, path: string) {
    var serverPath := RemoveMountPrefix(path);
    Mounted(path) && path in s.client.cache && serverPath in s.server && !HasDirty(s.client, path) &&
    LocalWins(s.client.cache[path].mtime, s.server[serverPath].mtime) ==>
      s.client.cache[path].data == s.server[serverPath].data
  }

  ghost predicate Coherent(s: Site) {
    forall path :: CoherentAt(s, path)
  }

  ghost predicate Dated(files: Store, clock: nat) {
    forall path :: path in files ==> files[path].mtime <= clock
  }

  /** Ticks lie in the epoch where times are multiples of 256 ns apart and exceed that spacing. */
  ghost predicate Tick(clock: nat, now: nat) {
    clock + 256 < now && TWO_60 <= now < TWO_61
  }

  /** The server lost no file, and whatever changed there is stamped after `clock`. */
  ghost predicate Advances(server: Store, server': Store, clock: nat, now: nat) {
    && server.Keys <= server'.Keys
    && forall p :: p in server' ==>
         (p in server && server'[p] == server[p]) || (Tick(clock, server'[p].mtime) && server'[p].mtime <= now)
  }

  /** Server changes never break a client that did not move: its copies lose against the new ones. */
  lemma BystanderStaysCoherent(s: Site, server': Store, clock: nat, now: nat)
    requires Coherent(s) && Dated(s.client.cache, clock) && Advances(s.server, server', clock, now)
    ensures Coherent(Site(server', s.client))
  {
    forall path ensures CoherentAt(Site(server', s.client), path) {
      assert CoherentAt(s, path);
      var serverPath := RemoveMountPrefix(path);
      if path in s.client.cache && serverPath in server' &&
         !(serverPath in s.server && server'[serverPath] == s.server[serverPath]) {
        ContestOfEpoch(s.client.cache[path].mtime, server'[serverPath].mtime);
      }
    }
  }

  /** The fetch leaves a short copy of a server file that no dirty descriptor will ever write back. */
  ghost predicate FetchBreaks(s: Site, path: string, f: Faults) {
    var serverPath := RemoveMountPrefix(path);
    && f.statOk && f.downloadOk && f.saved.PART? && ShouldFetch(s, path, true) == REMOTE
    && f.saved.bytes < |s.server[serverPath].data| && !HasDirty(s.client, path)
  }

  lemma FetchCoherence(s: Site, path: string, flags: Flags, clock: nat, now: nat, f: Faults)
    requires Coherent(s) && Dated(s.client.cache, clock) && Dated(s.server, clock) && Tick(clock, now) && Mounted(path)
    ensures var s' := Fetch(s, path, flags, now, f).0;
            (Coherent(s') <==> !FetchBreaks(s, path, f))
            && Dated(s'.client.cache, now) && Advances(s.server, s'.server, clock, now)
            && s'.client.index == s.client.index
  {
    var s' := Fetch(s, path, flags, now, f).0;
    if s'.client == s.client {
      BystanderStaysCoherent(s, s'.server, clock, now);
      assert s' == Site(s'.server, s.client);
    } else {
      forall p ensures HasDirty(s'.client, p) == HasDirty(s.client, p) && (p != path ==> CoherentAt(s', p)) {
        assert CoherentAt(s, p);
      }
      NewerLocalWins(now, s.server[RemoveMountPrefix(path)].mtime);
      assert CoherentAt(s', path) <==> !FetchBreaks(s, path, f);
    }
  }

  /** The local open leaves an empty file, though the server's is not empty and no dirty descriptor
      will ever write it back. */
  ghost predicate EmptiesClean(s: Site, path: string, flags: Flags, permitted: bool) {
    var serverPath := RemoveMountPrefix(path);
    && Opens(s.client.cache, path, flags, permitted)
    && (path !in s.client.cache || flags.trunc)
    && serverPath in s.server && s.server[serverPath].data != [] && !HasDirty(s.client, path)
  }

  lemma CleanOpenKeepsDirt(c: Client, fd: int, path: string, cache: Store, p: string)
    requires fd !in c.index.fdToMeta
    ensures HasDirty(Client(cache, Opened(c.index, fd, path)), p) == HasDirty(c, p)
  {
    var c' := Client(cache, Opened(c.index, fd, path));
    forall d ensures (IsDirty(c', d) && c'.index.fdToMeta[d].path == p)
      <==> (IsDirty(c, d) && c.index.fdToMeta[d].path == p) {}
    if d :| IsDirty(c, d) && c.index.fdToMeta[d].path == p {
      assert IsDirty(c', d);
    }
  }

  lemma OpenLocalCoherence(s: Site, path: string, fd: int, flags: Flags, now: nat, permitted: bool)
    requires Coherent(s) && Mounted(path) && fd !in s.client.index.fdToMeta
    requires Dated(s.server, now) && now < TWO_61
    ensures Coherent(OpenLocal(s, path, fd, flags, now, permitted).0) <==> !EmptiesClean(s, path, flags, permitted)
  {
    var s' := OpenLocal(s, path, fd, flags, now, permitted).0;
    if Opens(s.client.cache, path, flags, permitted) {
      forall p ensures HasDirty(s'.client, p) == HasDirty(s.client, p) && (p != path ==> CoherentAt(s', p)) {
        CleanOpenKeepsDirt(s.client, fd, path, s'.client.cache, p);
        assert CoherentAt(s, p);
      }
      assert CoherentAt(s, path);
      var serverPath := RemoveMountPrefix(path);
      if serverPath in s.server && (path !in s.client.cache || flags.trunc) {
        NewerLocalWins(now, s.server[serverPath].mtime);
      }
      assert CoherentAt(s', path) <==> !EmptiesClean(s, path, flags, permitted);
    }
  }

  /** The open leaves a short copy, or gets past the server and then empties a clean copy. */
  ghost predicate OpenBreaks(s: Site, path: string, flags: Flags, t1: nat, f: Faults) {
    var (fetched, ok) := Fetch(s, path, flags, t1, f);
    FetchBreaks(s, path, f) || (ok && EmptiesClean(fetched, path, flags, f.localOk))
  }

  ghost predicate CreateBreaks(s: Site, path: string, flags: Flags, t1: nat, f: Faults) {
    var (created, ok) := CreateOnServer(s, path, flags, t1, f.serverOk);
    ok && EmptiesClean(created, path, flags, f.localOk)
  }

  /** Without O_CREAT and O_TRUNC, which the kernel does not pass to open, an open breaks coherence
      exactly when the download is saved short. */
  lemma FilteredOpenBreaksWhen(s: Site, path: string, flags: Flags, t1: nat, f: Faults)
    requires !flags.creat && !flags.trunc
    ensures OpenBreaks(s, path, flags, t1, f) <==> FetchBreaks(s, path, f)
  {
  }

  /** A create breaks coherence exactly when it meets a non-empty server file that this client has
      never cached and neither O_EXCL nor O_TRUNC is given. */
  lemma CreateBreaksWhen(s: Site, path: string, flags: Flags, t1: nat, f: Faults)
    ensures CreateBreaks(s, path, flags, t1, f) <==>
            var serverPath := RemoveMountPrefix(path);
            f.serverOk && f.localOk && flags.creat && !flags.excl && !flags.trunc &&
            serverPath in s.server && s.server[serverPath].data != [] &&
            path !in s.client.cache && !HasDirty(s.client, path)
  {
  }

  /** An open breaks coherence exactly when it spoils a copy of a non-empty server file that this client
      has not dirtied: with a download saved short; with O_TRUNC on a copy that is there after the fetch;
      or with O_CREAT where there is still none, because the stat or the saving of the download failed. */
  lemma OpenBreaksWhen(s: Site, path: string, flags: Flags, t1: nat, f: Faults)
    ensures OpenBreaks(s, path, flags, t1, f) <==>
            var serverPath := RemoveMountPrefix(path);
            var cached := path in s.client.cache;
            var empties := f.localOk && flags.trunc && !(flags.creat && flags.excl);
            && serverPath in s.server && s.server[serverPath].data != [] && !HasDirty(s.client, path)
            && if !f.statOk then
                 f.serverOk && f.localOk && flags.creat && !flags.excl && !flags.trunc && !cached
               else if ShouldFetch(s, path, true) == LOCAL then empties
               else
                 && f.downloadOk
                 && match f.saved
                    case WHOLE => empties
                    case PART(bytes) => bytes < |s.server[serverPath].data| || empties
                    case FAILED => if cached then empties else f.localOk && flags.creat
  {
    var (fetched, ok) := Fetch(s, path, flags, t1, f);
    assert fetched.client.index == s.client.index;
    assert HasDirty(fetched.client, path) == HasDirty(s.client, path);
  }

  ghost predicate TwoTicks(clock: nat, t1: nat, t2: nat) {
    Tick(clock, t1) && t1 <= t2 < TWO_61
  }

  /** Opening a short copy, even emptying it, does not make it coherent again. */
  lemma ShortCopyStays(s: Site, path: string, fd: int, flags: Flags, clock: nat, t1: nat, t2: nat, f: Faults)
    requires Dated(s.server, clock) && TwoTicks(clock, t1, t2)
    requires Mounted(path) && fd !in s.client.index.fdToMeta && FetchBreaks(s, path, f)
    ensures !CoherentAt(Open(s, path, fd, flags, t1, t2, f).0, path)
  {
    var s' := Open(s, path, fd, flags, t1, t2, f).0;
    var (fetched, _) := Fetch(s, path, flags, t1, f);
    assert HasDirty(fetched.client, path) == HasDirty(s.client, path);
    CleanOpenKeepsDirt(fetched.client, fd, path, s'.client.cache, path);
    NewerLocalWins(t1, s.server[RemoveMountPrefix(path)].mtime);
    NewerLocalWins(t2, s.server[RemoveMountPrefix(path)].mtime);
  }

  lemma OpenCoherence(s: Site, path: string, fd: int, flags: Flags, clock: nat, t1: nat, t2: nat, f: Faults)
    requires Coherent(s) && Dated(s.client.cache, clock) && Dated(s.server, clock) && TwoTicks(clock, t1, t2)
    requires Mounted(path) && fd !in s.client.index.fdToMeta
    ensures var s' := Open(s, path, fd, flags, t1, t2, f).0;
            (Coherent(s') <==> !OpenBreaks(s, path, flags, t1, f))
            && Dated(s'.client.cache, t2) && Advances(s.server, s'.server, clock, t1)
  {
    FetchCoherence(s, path, flags, clock, t1, f);
    var (fetched, ok) := Fetch(s, path, flags, t1, f);
    if FetchBreaks(s, path, f) {
      ShortCopyStays(s, path, fd, flags, clock, t1, t2, f);
    } else if ok {
      OpenLocalCoherence(fetched, path, fd, flags, t2, f.localOk);
    }
  }

  lemma CreateCoherence(s: Site, path: string, fd: int, flags: Flags, clock: nat, t1: nat, t2: nat, f: Faults)
    requires Coherent(s) && Dated(s.client.cache, clock) && Dated(s.server, clock) && TwoTicks(clock, t1, t2)
    requires Mounted(path) && fd !in s.client.index.fdToMeta
    ensures var s' := Create(s, path, fd, flags, t1, t2, f).0;
            (Coherent(s') <==> !CreateBreaks(s, path, flags, t1, f))
            && Dated(s'.client.cache, t2) && Advances(s.server, s'.server, clock, t1)
  {
    var (created, ok) := CreateOnServer(s, path, flags, t1, f.serverOk);
    BystanderStaysCoherent(s, created.server, clock, t1);
    assert created == Site(created.server, s.client);
    if ok { OpenLocalCoherence(created, path, fd, flags, t2, f.localOk); }
  }

  lemma TouchKeepsCoherence(s: Site, fd: int, cache: Store)
    requires Coherent(s) && fd in s.client.index.fdToMeta
    requires forall p :: p != s.client.index.fdToMeta[fd].path ==>
      (p in cache <==> p in s.client.cache) && (p in cache ==> cache[p] == s.client.cache[p])
    ensures Coherent(Site(s.server, Client(cache, Dirtied(s.client.index, fd))))
  {
    var c' := Client(cache, Dirtied(s.client.index, fd));
    assert IsDirty(c', fd);
    forall p ensures CoherentAt(Site(s.server, c'), p) {
      assert CoherentAt(s, p);
      if d :| IsDirty(s.client, d) && s.client.index.fdToMeta[d].path == p {
        assert IsDirty(c', d) && c'.index.fdToMeta[d].path == p;
      }
    }
  }

  /** Local changes never break coherence: the descriptor they go through is dirty afterwards. */
  lemma WriteCoherence(s: Site, fd: int, buf: Bytes, offset: nat, clock: nat, now: nat, ok: bool)
    requires Coherent(s) && Dated(s.client.cache, clock) && clock <= now
    ensures Coherent(Write(s, fd, buf, offset, now, ok)) && Dated(Write(s, fd, buf, offset, now, ok).client.cache, now)
  {
    if fd in s.client.index.fdToMeta { TouchKeepsCoherence(s, fd, Write(s, fd, buf, offset, now, ok).client.cache); }
  }

  lemma TruncateCoherence(s: Site, path: string, fd: int, length: nat, clock: nat, now: nat, ok: bool)
    requires Coherent(s) && Dated(s.client.cache, clock) && clock <= now
    requires fd > 0 && fd in s.client.index.fdToMeta && s.client.index.fdToMeta[fd].path == path
    ensures var s' := Ftruncate(s, path, fd, length, now, ok).0; Coherent(s') && Dated(s'.client.cache, now)
  {
    if ok && path in s.client.cache {
      TouchKeepsCoherence(s, fd, Ftruncate(s, path, fd, length, now, ok).0.client.cache);
    }
  }

  lemma WritebackCoherence(s: Site, path: string, fd: int, clock: nat, now: nat, outcome: Outcome)
    requires Coherent(s) && Dated(s.client.cache, clock) && Tick(clock, now)
    ensures var s' := WritebackToServer(s, path, fd, now, outcome).0;
            Coherent(s') && s'.client == s.client && Advances(s.server, s'.server, clock, now)
  {
    var s' := WritebackToServer(s, path, fd, now, outcome).0;
    BystanderStaysCoherent(s, s'.server, clock, now);
    assert s' == Site(s'.server, s.client);
  }

  /** The release drops the last dirty descriptor although nothing was stored, and the cached copy
      wins the contest with different contents. */
  ghost predicate ReleaseBreaks(s: Site, path: string, fd: int, outcome: Outcome) {
    var serverPath := RemoveMountPrefix(path);
    && IsDirty(s.client, fd) && (outcome == Unreadable || outcome == RenameLost)
    && (forall d :: d != fd && IsDirty(s.client, d) ==> s.client.index.fdToMeta[d].path != path)
    && path in s.client.cache && serverPath in s.server
    && LocalWins(s.client.cache[path].mtime, s.server[serverPath].mtime)
    && s.client.cache[path].data != s.server[serverPath].data
  }

  lemma CloseDirt(c: Client, fd: int, path: string)
    ensures HasDirty(c.(index := Closed(c.index, fd)), path) <==>
            exists d :: d != fd && IsDirty(c, d) && c.index.fdToMeta[d].path == path
  {
    var c' := c.(index := Closed(c.index, fd));
    if HasDirty(c', path) {
      var d :| IsDirty(c', d) && c'.index.fdToMeta[d].path == path;
      assert d != fd && IsDirty(c, d) && c.index.fdToMeta[d].path == path;
    }
    if d :| d != fd && IsDirty(c, d) && c.index.fdToMeta[d].path == path {
      assert IsDirty(c', d) && c'.index.fdToMeta[d].path == path;
    }
  }

  lemma ClosedPathCoherence(s: Site, path: string, fd: int, clock: nat, now: nat, outcome: Outcome)
    requires Coherent(s) && Dated(s.client.cache, clock) && Tick(clock, now) && Mounted(path)
    requires fd > 0 && fd in s.client.index.fdToMeta && s.client.index.fdToMeta[fd].path == path
    requires Release(s, path, fd, now, outcome).1
    ensures CoherentAt(Release(s, path, fd, now, outcome).0, path) <==> !ReleaseBreaks(s, path, fd, outcome)
  {
    var s' := Release(s, path, fd, now, outcome).0;
    CloseDirt(s.client, fd, path);
    assert CoherentAt(s, path);
    if !IsDirty(s.client, fd) {
      assert HasDirty(s'.client, path) <==> HasDirty(s.client, path);
    } else {
      assert HasDirty(s.client, path);
      if path in s.client.cache && (outcome == Stored || outcome.StoredPart?) {
        ContestOfEpoch(s.client.cache[path].mtime, now);
      }
    }
  }

  lemma ReleaseCoherence(s: Site, path: string, fd: int, clock: nat, now: nat, outcome: Outcome)
    requires Coherent(s) && Dated(s.client.cache, clock) && Tick(clock, now) && Mounted(path)
    requires fd > 0 && fd in s.client.index.fdToMeta && s.client.index.fdToMeta[fd].path == path
    ensures var s' := Release(s, path, fd, now, outcome).0;
            (Coherent(s') <==> !ReleaseBreaks(s, path, fd, outcome))
            && s'.client.cache == s.client.cache && Advances(s.server, s'.server, clock, now)
  {
    WritebackCoherence(s, path, fd, clock, now, outcome);
    var (stored, ok) := WritebackToServer(s, path, fd, now, outcome);
    if ok {
      var s' := Release(s, path, fd, now, outcome).0;
      ClosedPathCoherence(s, path, fd, clock, now, outcome);
      forall p | p != path ensures CoherentAt(s', p) {
        assert CoherentAt(stored, p);
        CloseDirt(s.client, fd, p);
      }
    }
  }

  // ---------------------------------------------------------------------------------------------
  // Any number of clients
  // ---------------------------------------------------------------------------------------------

  datatype System = System(server: Store, clients: map<int, Client>, clock: nat)

  datatype Step =
    | OpenStep(client: int, path: string, fd: int, flags: Flags, t1: nat, t2: nat, faults: Faults)
    | CreateStep(client: int, path: string, fd: int, flags: Flags, t1: nat, t2: nat, faults: Faults)
    | WriteStep(client: int, fd: int, buf: Bytes, offset: nat, t1: nat, ok: bool)
    | TruncateStep(client: int, fd: int, length: nat, t1: nat, ok: bool)
    | FlushStep(client: int, fd: int, t1: nat, outcome: Outcome)
    | ReleaseStep(client: int, fd: int, t1: nat, outcome: Outcome)

  /** The kernel passes a descriptor's own path along with it. */
  function PathOf(c: Client, fd: int): string {
    if fd in c.index.fdToMeta then c.index.fdToMeta[fd].path else ""
  }

  function Act(s: Site, step: Step): Site {
    match step
    case OpenStep(_, path, fd, flags, t1, t2, f) => Open(s, path, fd, flags, t1, t2, f).0
    case CreateStep(_, path, fd, flags, t1, t2, f) => Create(s, path, fd, flags, t1, t2, f).0
    case WriteStep(_, fd, buf, offset, t1, ok) => Write(s, fd, buf, offset, t1, ok)
    case TruncateStep(_, fd, length, t1, ok) => Ftruncate(s, PathOf(s.client, fd), fd, length, t1, ok).0
    case FlushStep(_, fd, t1, outcome) => Flush(s, PathOf(s.client, fd), fd, t1, outcome).0
    case ReleaseStep(_, fd, t1, outcome) => Release(s, PathOf(s.client, fd), fd, t1, outcome).0
  }

  function LastTick(step: Step): nat {
    if step.OpenStep? || step.CreateStep? then step.t2 else step.t1
  }

  function SiteOf(sys: System, c: int): Site
    requires c in sys.clients
  {
    Site(sys.server, sys.clients[c])
  }

  function Next(sys: System, step: Step): System {
    if step.client !in sys.clients then sys else
    var s := Act(SiteOf(sys, step.client), step);
    System(s.server, sys.clients[step.client := s.client], LastTick(step))
  }

  /** What the model asks of the environment: a known client, growing ticks, fresh descriptors for
      opens, registered ones for the rest, paths below the mount, and none of the breaking cases. */
  ghost predicate Legal(sys: System, step: Step) {
    && step.client in sys.clients
    && Tick(sys.clock, step.t1) && step.t1 <= LastTick(step) < TWO_61
    && var s := SiteOf(sys, step.client);
    match step
    case OpenStep(_, path, fd, flags, t1, _, f) =>
      Mounted(path) && fd !in s.client.index.fdToMeta && fd > 0 && !OpenBreaks(s, path, flags, t1, f)
    case CreateStep(_, path, fd, flags, t1, _, f) =>
      Mounted(path) && fd !in s.client.index.fdToMeta && fd > 0 && !CreateBreaks(s, path, flags, t1, f)
    case WriteStep(_, fd, _, _, _, _) => fd in s.client.index.fdToMeta
    case TruncateStep(_, fd, _, _, _) => fd in s.client.index.fdToMeta
    case FlushStep(_, fd, _, _) => fd in s.client.index.fdToMeta
    case ReleaseStep(_, fd, _, outcome) =>
      fd in s.client.index.fdToMeta && !ReleaseBreaks(s, PathOf(s.client, fd), fd, outcome)
  }

  ghost predicate GoodTable(c: Client) {
    Agrees(c.index) && forall fd :: fd in c.index.fdToMeta ==> fd > 0 && Mounted(c.index.fdToMeta[fd].path)
  }

  ghost predicate Good(sys: System) {
    && Dated(sys.server, sys.clock)
    && forall c :: c in sys.clients ==>
         Coherent(SiteOf(sys, c)) && Dated(sys.clients[c].cache, sys.clock) && GoodTable(sys.clients[c])
  }

  lemma ActKeepsTable(s: Site, step: Step)
    requires GoodTable(s.client)
    requires step.OpenStep? || step.CreateStep?
             ==> step.fd > 0 && step.fd !in s.client.index.fdToMeta && Mounted(step.path)
    ensures GoodTable(Act(s, step).client)
  {
    var ix := s.client.index;
    match step
    case OpenStep(_, path, fd, flags, t1, _, f) =>
      assert Fetch(s, path, flags, t1, f).0.client.index == ix;
      OpenKeepsAgreement(ix, fd, path);
    case CreateStep(_, path, fd, _, _, _, _) => OpenKeepsAgreement(ix, fd, path);
    case WriteStep(_, fd, _, _, _, _) => DirtyKeepsAgreement(ix, fd);
    case TruncateStep(_, fd, _, _, _) => DirtyKeepsAgreement(ix, fd);
    case FlushStep(_, fd, _, _) =>
    case ReleaseStep(_, fd, _, _) => CloseKeepsAgreement(ix, fd);
  }

  lemma ActKeepsCoherence(sys: System, step: Step)
    requires Good(sys) && Legal(sys, step)
    ensures var s := Act(SiteOf(sys, step.client), step);
            Coherent(s) && Dated(s.client.cache, LastTick(step)) && Advances(sys.server, s.server, sys.clock, step.t1)
  {
    var s := SiteOf(sys, step.client);
    match step
    case OpenStep(_, path, fd, flags, t1, t2, f) => OpenCoherence(s, path, fd, flags, sys.clock, t1, t2, f);
    case CreateStep(_, path, fd, flags, t1, t2, f) => CreateCoherence(s, path, fd, flags, sys.clock, t1, t2, f);
    case WriteStep(_, fd, buf, offset, t1, ok) => WriteCoherence(s, fd, buf, offset, sys.clock, t1, ok);
    case TruncateStep(_, fd, length, t1, ok) =>
      TruncateCoherence(s, PathOf(s.client, fd), fd, length, sys.clock, t1, ok);
    case FlushStep(_, fd, t1, outcome) => WritebackCoherence(s, PathOf(s.client, fd), fd, sys.clock, t1, outcome);
    case ReleaseStep(_, fd, t1, outcome) => ReleaseCoherence(s, PathOf(s.client, fd), fd, sys.clock, t1, outcome);
  }

  lemma StepKeepsGood(sys: System, step: Step)
    requires Good(sys) && Legal(sys, step)
    ensures Good(Next(sys, step))
  {
    var sys' := Next(sys, step);
    ActKeepsCoherence(sys, step);
    forall c | c in sys'.clients
      ensures Coherent(SiteOf(sys', c)) && Dated(sys'.clients[c].cache, sys'.clock) && GoodTable(sys'.clients[c])
    {
      if c == step.client {
        ActKeepsTable(SiteOf(sys, c), step);
        assert SiteOf(sys', c) == Act(SiteOf(sys, c), step);
      } else {
        BystanderStaysCoherent(SiteOf(sys, c), sys'.server, sys.clock, step.t1);
        assert SiteOf(sys', c) == Site(sys'.server, sys.clients[c]);
      }
    }
  }

  function Run(sys: System, steps: seq<Step>): System {
    if steps == [] then sys else Next(Run(sys, steps[..|steps| - 1]), steps[|steps| - 1])
  }

  ghost predicate LegalRun(sys: System, steps: seq<Step>) {
    steps == [] || (LegalRun(sys, steps[..|steps| - 1]) && Legal(Run(sys, steps[..|steps| - 1]), steps[|steps| - 1]))
  }

  /** In every run of any number of clients, every client stays coherent with the server. */
  lemma {:induction false} EveryRunIsGood(sys: System, steps: seq<Step>)
    requires Good(sys) && LegalRun(sys, steps)
    ensures Good(Run(sys, steps))
  {
    if steps != [] {
      EveryRunIsGood(sys, steps[..|steps| - 1]);
      StepKeepsGood(Run(sys, steps[..|steps| - 1]), steps[|steps| - 1]);
    }
  }

  /** Clients that start with empty caches and no descriptors are a good start. */
  lemma FreshStartIsGood(sys: System)
    requires Dated(sys.server, sys.clock)
    requires forall c :: c in sys.clients ==> sys.clients[c] == Client(map[], Index(map[], map[]))
    ensures Good(sys)
  {
    CacheIndex.EveryRunAgrees([]);
    forall c | c in sys.clients ensures Coherent(SiteOf(sys, c)) {
      forall p ensures CoherentAt(SiteOf(sys, c), p) {}
    }
  }

  // ---------------------------------------------------------------------------------------------
  // What an open sees
  // ---------------------------------------------------------------------------------------------

  /** An open whose stat and save do not fail, by a client with no dirty descriptor on the path, opens
      exactly the server's contents, unless its download was saved short, or the server had lost a file
      whose non-empty copy is still cached. */
  lemma OpenSeesServer(s: Site, path: string, fd: int, flags: Flags, t1: nat, t2: nat, f: Faults)
    requires Coherent(s) && Mounted(path) && !HasDirty(s.client, path)
    requires f.statOk && f.saved != FAILED && !flags.trunc && Open(s, path, fd, flags, t1, t2, f).1
    ensures var s' := Open(s, path, fd, flags, t1, t2, f).0;
            var serverPath := RemoveMountPrefix(path);
            path in s'.client.cache && serverPath in s'.server &&
            (s'.client.cache[path].data == s'.server[serverPath].data <==>
             if serverPath in s.server then !FetchBreaks(s, path, f)
             else path !in s.client.cache || s.client.cache[path].data == [])
  {
    assert CoherentAt(s, path);
  }

  /** Close-to-open consistency: in every run, a client that opens a path the server has and holds no
      dirty descriptor on it opens the server's current contents. */
  lemma CloseToOpen(sys: System, steps: seq<Step>, step: Step)
    requires Good(sys) && LegalRun(sys, steps) && step.OpenStep? && step.client in Run(sys, steps).clients
    requires Mounted(step.path) && step.faults.statOk && step.faults.saved == WHOLE && !step.flags.trunc
    requires var now := Run(sys, steps); var s := SiteOf(now, step.client);
             && RemoveMountPrefix(step.path) in now.server && !HasDirty(s.client, step.path)
             && Open(s, step.path, step.fd, step.flags, step.t1, step.t2, step.faults).1
    ensures var now := Run(sys, steps); var then' := Next(now, step);
            then'.server == now.server && step.path in then'.clients[step.client].cache &&
            then'.clients[step.client].cache[step.path].data == now.server[RemoveMountPrefix(step.path)].data
  {
    EveryRunIsGood(sys, steps);
    var s := SiteOf(Run(sys, steps), step.client);
    assert Coherent(s);
    OpenSeesServer(s, step.path, step.fd, step.flags, step.t1, step.t2, step.faults);
  }

  /** A stored release puts exactly the closing client's cached contents on the server. */
  lemma ReleaseStores(s: Site, fd: int, now: nat)
    requires fd > 0 && IsDirty(s.client, fd) && PathOf(s.client, fd) in s.client.cache
    ensures var path := PathOf(s.client, fd); var s' := Release(s, path, fd, now, Stored).0;
            s'.server == s.server[RemoveMountPrefix(path) := File(s.client.cache[path].data, now)]
            && fd !in s'.client.index.fdToMeta && s'.client.cache == s.client.cache
  {
  }

  /** Whatever becomes of the writeback, when the release of a dirty file succeeds the server holds the
      cached contents exactly when they were read and stored whole, or what was missed does not show: a
      tail of zeros, or contents the server had already. */
  lemma ReleaseStoresWhen(s: Site, fd: int, now: nat, outcome: Outcome)
    requires fd > 0 && IsDirty(s.client, fd) && PathOf(s.client, fd) in s.client.cache
    requires var path := PathOf(s.client, fd); Release(s, path, fd, now, outcome).1
    ensures var path := PathOf(s.client, fd); var p := RemoveMountPrefix(path);
            var data := s.client.cache[path].data;
            var server := Release(s, path, fd, now, outcome).0.server;
            p in server && server[p].data == data <==>
              match outcome
              case Stored => true
              case StoredPart(bytes) => forall k :: bytes <= k < |data| ==> data[k] == 0
              case _ => p in s.server && s.server[p].data == data
  {
    var data := s.client.cache[PathOf(s.client, fd)].data;
    if outcome.StoredPart? {
      var sent := SentData(data, outcome);
      if sent == data {
        assert forall k :: outcome.bytes <= k < |data| ==> sent[k] == 0;
      }
    }
  }

  /** A flush stores the cached contents but leaves the client as it was, descriptor dirty, so the
      release writes the same contents back again, with a newer time. */
  lemma FlushThenRelease(s: Site, fd: int, t1: nat, t2: nat)
    requires fd > 0 && IsDirty(s.client, fd) && PathOf(s.client, fd) in s.client.cache
    ensures var path := PathOf(s.client, fd); var data := s.client.cache[path].data; var p := RemoveMountPrefix(path);
            var (flushed, ok) := Flush(s, path, fd, t1, Stored);
            ok && flushed == Site(s.server[p := File(data, t1)], s.client)
            && Release(flushed, path, fd, t2, Stored).0.server == s.server[p := File(data, t2)]
            && Release(flushed, path, fd, t2, Stored).1
            && fd !in Release(flushed, path, fd, t2, Stored).0.client.index.fdToMeta
  {
    var path := PathOf(s.client, fd);
    var p := RemoveMountPrefix(path);
    var data := s.client.cache[path].data;
    assert s.server[p := File(data, t1)][p := File(data, t2)] == s.server[p := File(data, t2)];
  }

  /** A stored release of a dirty descriptor. */
  ghost predicate StoringClose(sys: System, close: Step) {
    && close.ReleaseStep? && close.outcome == Stored && Legal(sys, close)
    && var c := sys.clients[close.client];
    IsDirty(c, close.fd) && PathOf(c, close.fd) in c.cache
  }

  /** An open of `path` that succeeds undisturbed, by a client with no dirty descriptor on it. */
  ghost predicate CleanOpen(sys: System, open: Step, path: string) {
    && open.OpenStep? && open.path == path && open.client in sys.clients
    && open.faults.statOk && open.faults.saved == WHOLE && !open.flags.trunc
    && !HasDirty(sys.clients[open.client], path)
    && Open(SiteOf(sys, open.client), path, open.fd, open.flags, open.t1, open.t2, open.faults).1
  }

  /** Two clients: what the first has cached when it closes a dirty file is what the second opens
      later, as long as nobody stored that file in between. */
  lemma CloseThenOpen(sys: System, close: Step, between: seq<Step>, open: Step)
    requires Good(sys) && StoringClose(sys, close) && LegalRun(Next(sys, close), between)
    ensures var path := PathOf(sys.clients[close.client], close.fd);
            var p := RemoveMountPrefix(path);
            var closed := Next(sys, close);
            var now := Run(closed, between);
            p in closed.server &&
            (p in now.server && now.server[p] == closed.server[p] && CleanOpen(now, open, path) ==>
               path in Next(now, open).clients[open.client].cache &&
               Next(now, open).clients[open.client].cache[path].data == sys.clients[close.client].cache[path].data)
  {
    var path := PathOf(sys.clients[close.client], close.fd);
    var p := RemoveMountPrefix(path);
    var closed := Next(sys, close);
    var now := Run(closed, between);
    ReleaseStores(SiteOf(sys, close.client), close.fd, close.t1);
    if p in now.server && now.server[p] == closed.server[p] && CleanOpen(now, open, path) {
      StepKeepsGood(sys, close);
      CloseToOpen(closed, between, open);
    }
  }

  /** A client sees its own unsaved writes through a second open as long as the server's copy is not
      newer; a newer server copy replaces them in the cache (the descriptor stays dirty). */
  lemma OwnWritesUntilOverwritten(s: Site, path: string, fd: int, flags: Flags, t1: nat, t2: nat, f: Faults)
    requires Mounted(path) && path in s.client.cache && RemoveMountPrefix(path) in s.server
    requires f.statOk && f.saved == WHOLE && !flags.trunc && Open(s, path, fd, flags, t1, t2, f).1
    ensures var file := s.client.cache[path]; var remote := s.server[RemoveMountPrefix(path)];
            Open(s, path, fd, flags, t1, t2, f).0.client.cache[path] ==
            if LocalWins(file.mtime, remote.mtime) then file else File(remote.data, t1)
    ensures fd !in s.client.index.fdToMeta ==>
            forall p :: HasDirty(Open(s, path, fd, flags, t1, t2, f).0.client, p) == HasDirty(s.client, p)
  {
    if fd !in s.client.index.fdToMeta {
      var cache := Open(s, path, fd, flags, t1, t2, f).0.client.cache;
      forall p ensures HasDirty(Open(s, path, fd, flags, t1, t2, f).0.client, p) == HasDirty(s.client, p) {
        CleanOpenKeepsDirt(s.client, fd, path, cache, p);
      }
    }
  }

  // ---------------------------------------------------------------------------------------------
  // The client's methods
  // ---------------------------------------------------------------------------------------------

  class WowServer {
    var files: Store

    constructor (files: Store)
      ensures this.files == files
    {
      this.files := files;
    }

    /** Open and Create on the server: one open(2), closed again at once. */
    method OpenPath(path: string, flags: Flags, permitted: bool, now: nat) returns (ok: bool)
      modifies this
      ensures files == OpenFile(old(files), path, flags, permitted, now)
      ensures ok == Opens(old(files), path, flags, permitted)
    {
      ok := permitted && if path in files then !(flags.creat && flags.excl) else flags.creat;
      if ok && (path !in files || flags.trunc) {
        files := files[path := File([], now)];
      }
    }
  }

  class WowClient {
    const server: WowServer
    const cmgr: CacheManager
    var cache: Store

    ghost function State(): Site
      reads this, server, cmgr
    {
      Site(server.files, Client(cache, cmgr.State()))
    }

    constructor (server: WowServer)
      ensures this.server == server && fresh(cmgr)
      ensures State() == Site(server.files, Client(map[], Index(map[], map[])))
    {
      this.server := server;
      cmgr := new CacheManager();
      cache := map[];
    }

    method OpenInCache(path: string, fd: int, flags: Flags, now: nat, permitted: bool) returns (ok: bool)
      modifies this, cmgr
      ensures (State(), ok) == OpenLocal(old(State()), path, fd, flags, now, permitted)
    {
      ok := permitted && if path in cache then !(flags.creat && flags.excl) else flags.creat;
      if !ok {
        return;
      }
      if path !in cache || flags.trunc {
        cache := cache[path := File([], now)];
      }
      cmgr.RegisterFileOpen(fd, path);
    }

    method UnreliableOpen(path: string, fd: int, flags: Flags, t1: nat, t2: nat, f: Faults) returns (ok: bool)
      modifies this, cmgr, server
      ensures (State(), ok) == Open(old(State()), path, fd, flags, t1, t2, f)
    {
      var serverPath := RemoveMountPrefix(path);
      var remotePresent := f.statOk && serverPath in server.files;
      var fetch := remotePresent &&
                   (path !in cache || !LocalWins(cache[path].mtime, server.files[serverPath].mtime));
      if !remotePresent {
        ok := server.OpenPath(serverPath, flags.(creat := true), f.serverOk, t1);
        if !ok {
          return;
        }
      }
      if fetch {
        if !f.downloadOk {
          return false;
        }
        var readBuf := server.files[serverPath].data;
        if f.saved != FAILED {
          var written := if f.saved.PART? then Min(f.saved.bytes, |readBuf|) else |readBuf|;
          assert readBuf[..written] == SavedData(readBuf, f.saved);
          cache := cache[path := File(readBuf[..written], t1)];
        }
      }
      ghost var fetched := State();
      assert (fetched, true) == Fetch(old(State()), path, flags, t1, f);
      ok := OpenInCache(path, fd, flags, t2, f.localOk);
    }

    method UnreliableCreate(path: string, fd: int, flags: Flags, t1: nat, t2: nat, f: Faults) returns (ok: bool)
      modifies this, cmgr, server
      ensures (State(), ok) == Create(old(State()), path, fd, flags, t1, t2, f)
    {
      ok := server.OpenPath(RemoveMountPrefix(path), flags, f.serverOk, t1);
      if !ok {
        return;
      }
      ok := OpenInCache(path, fd, flags, t2, f.localOk);
    }

    method WowWrite(fd: int, buf: Bytes, offset: nat, now: nat, written: bool)
      modifies this, cmgr
      ensures State() == Write(old(State()), fd, buf, offset, now, written)
    {
      if fd in cmgr.fdToMeta {
        var path := cmgr.fdToMeta[fd].path;
        if written && buf != [] && path in cache {
          cache := cache[path := File(Pwrite(cache[path].data, buf, offset), now)];
        }
      }
      cmgr.RegisterFileDirty(fd);
    }

    method UnreliableFtruncate(path: string, fd: int, length: nat, now: nat, permitted: bool) returns (ok: bool)
      modifies this, cmgr
      ensures (State(), ok) == Ftruncate(old(State()), path, fd, length, now, permitted)
    {
      ok := permitted && path in cache;
      if !ok {
        return;
      }
      cache := cache[path := File(Resize(cache[path].data, length), now)];
      if fd > 0 {
        cmgr.RegisterFileDirty(fd);
      }
    }

    method Writeback(path: string, fd: int, now: nat, outcome: Outcome) returns (ok: bool)
      modifies server
      ensures (State(), ok) == WritebackToServer(old(State()), path, fd, now, outcome)
    {
      var dirty := cmgr.IsFileDirty(fd);
      if !dirty {
        return true;
      }
      var local := cmgr.fdToMeta[fd].path;
      if local in cache && outcome != Unreadable {
        if outcome == Refused {
          return false;
        }
        // the buffer has the size of the file before it is read
        var size := |cache[local].data|;
        var read := if outcome.StoredPart? || outcome.ReplyLost? then Min(outcome.bytes, size) else size;
        var readBuf := Resize(cache[local].data[..read], size);
        assert readBuf == SentData(cache[local].data, outcome);
        if outcome != RenameLost {
          server.files := server.files[RemoveMountPrefix(path) := File(readBuf, now)];
        }
        return !outcome.ReplyLost?;
      }
      return true;
    }

    method UnreliableFlush(path: string, fd: int, now: nat, outcome: Outcome) returns (ok: bool)
      modifies server
      ensures (State(), ok) == Flush(old(State()), path, fd, now, outcome)
    {
      ok := true;
      if fd > 0 {
        ok := Writeback(path, fd, now, outcome);
      }
    }

    method UnreliableRelease(path: string, fd: int, now: nat, outcome: Outcome) returns (ok: bool)
      modifies server, cmgr
      ensures (State(), ok) == Release(old(State()), path, fd, now, outcome)
    {
      if fd <= 0 {
        return false;
      }
      ok := Writeback(path, fd, now, outcome);
      if ok {
        cmgr.RegisterFileClose(fd);
      }
    }
  }
}
