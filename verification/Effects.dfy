/** What each operation of the cache protocol does to every file and descriptor, when it succeeds, and
    which steps can change a file on the server at all. */
module Effects {
  import opened FileBytes
  import CacheIndex
  import opened Mount
  import opened ModTime
  import opened Consistency

  // ---------------------------------------------------------------------------------------------
  // Frames
  // ---------------------------------------------------------------------------------------------

  /** Every file but `path` is as it was, or absent as it was. */
  ghost predicate OthersSame(files: Store, files': Store, path: string) {
    forall p :: p != path ==> (p in files' <==> p in files) && (p in files ==> files'[p] == files[p])
  }

  /** Every descriptor but `fd` is as it was. */
  ghost predicate DescriptorsSame(c: Client, c': Client, fd: int) {
    forall d :: d != fd ==>
      && (d in c'.index.fdToMeta <==> d in c.index.fdToMeta)
      && (d in c.index.fdToMeta ==> c'.index.fdToMeta[d] == c.index.fdToMeta[d])
  }

  // ---------------------------------------------------------------------------------------------
  // Write and truncate
  // ---------------------------------------------------------------------------------------------

  /** A write through a descriptor puts its bytes where they belong, keeps every other byte, fills a gap
      with zeros and never shortens the file; a failed or empty one leaves the file alone. The descriptor
      is dirty afterwards either way. */
  lemma WriteEffect(s: Site, fd: int, buf: Bytes, offset: nat, now: nat, ok: bool)
    requires fd in s.client.index.fdToMeta
    ensures var s' := Write(s, fd, buf, offset, now, ok); var path := s.client.index.fdToMeta[fd].path;
            && s'.server == s.server && OthersSame(s.client.cache, s'.client.cache, path)
            && DescriptorsSame(s.client, s'.client, fd)
            && s'.client.index.filepathToFreq == s.client.index.filepathToFreq
            && fd in s'.client.index.fdToMeta && s'.client.index.fdToMeta[fd] == CacheIndex.FileMeta(path, true)
            && (path in s'.client.cache <==> path in s.client.cache)
            && (path in s.client.cache ==>
                  var was, now' := s.client.cache[path], s'.client.cache[path];
                  if !ok || buf == [] then now' == was
                  else && now'.mtime == now && |now'.data| == Max(|was.data|, offset + |buf|)
                       && forall k :: 0 <= k < |now'.data| ==>
                            now'.data[k] == if offset <= k < offset + |buf| then buf[k - offset]
                                            else if k < |was.data| then was.data[k] else 0)
  {
  }

  /** A truncate that succeeds leaves exactly the length asked for: the old bytes as far as they go, then
      zeros. It fails exactly when the call fails or the file is not cached, and then changes nothing. */
  lemma TruncateEffect(s: Site, path: string, fd: int, length: nat, now: nat, permitted: bool)
    ensures var (s', ok) := Ftruncate(s, path, fd, length, now, permitted);
            && (ok <==> permitted && path in s.client.cache) && (!ok ==> s' == s)
            && s'.server == s.server && OthersSame(s.client.cache, s'.client.cache, path)
            && DescriptorsSame(s.client, s'.client, fd)
            && s'.client.index.filepathToFreq == s.client.index.filepathToFreq
            && (ok ==>
                  && path in s'.client.cache
                  && var was, now' := s.client.cache[path], s'.client.cache[path];
                  && now'.mtime == now && |now'.data| == length
                  && forall k :: 0 <= k < length ==> now'.data[k] == if k < |was.data| then was.data[k] else 0)
            && (ok && fd > 0 && fd in s.client.index.fdToMeta ==>
                  s'.client.index.fdToMeta[fd] == s.client.index.fdToMeta[fd].(isDirty := true))
            && (fd <= 0 ==> s'.client.index == s.client.index)
            && (fd !in s.client.index.fdToMeta ==> fd !in s'.client.index.fdToMeta)
  {
  }

  /** A truncate followed by a stored release puts exactly the truncated bytes on the server. */
  lemma TruncateThenRelease(s: Site, fd: int, length: nat, t1: nat, t2: nat)
    requires fd > 0 && fd in s.client.index.fdToMeta && s.client.index.fdToMeta[fd].path in s.client.cache
    ensures var path := s.client.index.fdToMeta[fd].path; var p := RemoveMountPrefix(path);
            var was := s.client.cache[path].data;
            var cut := Ftruncate(s, path, fd, length, t1, true).0;
            var (s', ok) := Release(cut, path, fd, t2, Stored);
            && ok && p in s'.server && |s'.server[p].data| == length && OthersSame(s.server, s'.server, p)
            && forall k :: 0 <= k < length ==> s'.server[p].data[k] == if k < |was| then was[k] else 0
  {
    var path := s.client.index.fdToMeta[fd].path;
    TruncateEffect(s, path, fd, length, t1, true);
    ReleaseStores(Ftruncate(s, path, fd, length, t1, true).0, fd, t2);
  }

  // ---------------------------------------------------------------------------------------------
  // Writeback, flush and release
  // ---------------------------------------------------------------------------------------------

  /** The outcomes that put something on the server. */
  predicate Stores(outcome: Outcome) {
    outcome == Stored || outcome.StoredPart? || outcome.ReplyLost?
  }

  /** A writeback changes the server only through a dirty descriptor whose cached file is there, and then
      only the file of the path it is called with, which gets the descriptor's cached contents as far as
      they were read, then zeros. It fails exactly when an attempted one is refused or its reply is lost. */
  lemma WritebackEffect(s: Site, path: string, fd: int, now: nat, outcome: Outcome)
    ensures var (s', ok) := WritebackToServer(s, path, fd, now, outcome); var p := RemoveMountPrefix(path);
            var attempted := IsDirty(s.client, fd) && s.client.index.fdToMeta[fd].path in s.client.cache;
            && s'.client == s.client && OthersSame(s.server, s'.server, p)
            && (ok <==> !(attempted && (outcome == Refused || outcome.ReplyLost?)))
            && (!(attempted && Stores(outcome)) ==> s'.server == s.server)
            && (attempted && Stores(outcome) ==>
                  && p in s'.server && s'.server[p].mtime == now
                  && var data := s.client.cache[s.client.index.fdToMeta[fd].path].data;
                  && |s'.server[p].data| == |data|
                  && forall k :: 0 <= k < |data| ==>
                       s'.server[p].data[k] == if outcome != Stored && k >= outcome.bytes then 0 else data[k])
  {
  }

  /** A flush is a writeback and nothing more; through a clean descriptor it changes nothing and succeeds,
      whatever would become of a writeback. */
  lemma FlushEffect(s: Site, path: string, fd: int, now: nat, outcome: Outcome)
    ensures !IsDirty(s.client, fd) || fd <= 0 ==> Flush(s, path, fd, now, outcome) == (s, true)
    ensures fd > 0 ==> Flush(s, path, fd, now, outcome) == WritebackToServer(s, path, fd, now, outcome)
  {
  }

  /** A release is a writeback; exactly when that succeeds, for a positive descriptor, it succeeds and
      forgets the descriptor. Through a clean descriptor the server stays as it is. */
  lemma ReleaseEffect(s: Site, path: string, fd: int, now: nat, outcome: Outcome)
    ensures var (s', ok) := Release(s, path, fd, now, outcome);
            var (stored, written) := WritebackToServer(s, path, fd, now, outcome);
            && (ok <==> fd > 0 && written) && s'.client.cache == s.client.cache
            && s'.server == (if fd > 0 then stored.server else s.server)
            && (!IsDirty(s.client, fd) ==> s'.server == s.server)
            && DescriptorsSame(s.client, s'.client, fd)
            && (fd in s'.client.index.fdToMeta <==> fd in s.client.index.fdToMeta && !ok)
            && (!ok ==> s'.client == s.client)
  {
  }

  // ---------------------------------------------------------------------------------------------
  // Create and open
  // ---------------------------------------------------------------------------------------------

  /** The open(2) of create is allowed: the call itself, and the file is there or O_CREAT makes it, unless
      O_EXCL forbids a file that is there. */
  predicate Allowed(present: bool, flags: Flags, permitted: bool) {
    permitted && (present || flags.creat) && !(present && flags.creat && flags.excl)
  }

  /** A local open that succeeds registers its descriptor clean under its path; the cached file is empty
      if it was absent or O_TRUNC is given, else as it was. One that fails changes nothing. */
  lemma OpenLocalEffect(s: Site, path: string, fd: int, flags: Flags, now: nat, permitted: bool)
    ensures var (s', ok) := OpenLocal(s, path, fd, flags, now, permitted); var cached := path in s.client.cache;
            && (ok <==> Allowed(cached, flags, permitted)) && (!ok ==> s' == s)
            && s'.server == s.server && OthersSame(s.client.cache, s'.client.cache, path)
            && DescriptorsSame(s.client, s'.client, fd)
            && (ok ==>
                  && path in s'.client.cache
                  && s'.client.cache[path] == (if cached && !flags.trunc then s.client.cache[path] else File([], now))
                  && fd in s'.client.index.fdToMeta && s'.client.index.fdToMeta[fd] == CacheIndex.FileMeta(path, false))
  {
  }

  /** A create reaches the server first: exactly when that open is allowed the server has the file, empty
      and stamped now if it was absent or O_TRUNC is given, and as it was otherwise. Nothing else changes
      there. It succeeds exactly when the local open is allowed too. */
  lemma CreateEffect(s: Site, path: string, fd: int, flags: Flags, t1: nat, t2: nat, f: Faults)
    ensures var (s', ok) := Create(s, path, fd, flags, t1, t2, f); var p := RemoveMountPrefix(path);
            var present := p in s.server; var created := Allowed(present, flags, f.serverOk);
            && (ok <==> created && Allowed(path in s.client.cache, flags, f.localOk))
            && OthersSame(s.server, s'.server, p)
            && (created ==>
                  p in s'.server && s'.server[p] == if present && !flags.trunc then s.server[p] else File([], t1))
            && (!created ==> s' == s)
            && (created ==> s'.client == OpenLocal(s, path, fd, flags, t2, f.localOk).0.client)
  {
  }

  /** An open succeeds exactly when its calls do and the local file is there or made: the stat failed or
      found nothing and the server's open(2) is allowed, or the download, if one is needed, works. */
  lemma OpenSucceedsWhen(s: Site, path: string, fd: int, flags: Flags, t1: nat, t2: nat, f: Faults)
    ensures Open(s, path, fd, flags, t1, t2, f).1 <==>
            var p := RemoveMountPrefix(path);
            var present := f.statOk && p in s.server;
            var fetches := present && !(path in s.client.cache
                                     && LocalWins(s.client.cache[path].mtime, s.server[p].mtime));
            && (if present then fetches ==> f.downloadOk else f.serverOk && !(p in s.server && flags.excl))
            && Allowed(path in s.client.cache || (fetches && f.saved != FAILED), flags, f.localOk)
  {
  }

  /** On the server an open only makes or empties the file its stat did not show it. */
  lemma OpenOnServer(s: Site, path: string, fd: int, flags: Flags, t1: nat, t2: nat, f: Faults)
    ensures var s' := Open(s, path, fd, flags, t1, t2, f).0; var p := RemoveMountPrefix(path);
            var makes := !(f.statOk && p in s.server) && f.serverOk && (p in s.server ==> !flags.excl && flags.trunc);
            && OthersSame(s.server, s'.server, p)
            && (if makes then p in s'.server && s'.server[p] == File([], t1) else s'.server == s.server)
  {
  }

  /** In the cache it leaves the file emptied, downloaded or kept, and every other file alone. */
  lemma OpenInCacheDir(s: Site, path: string, fd: int, flags: Flags, t1: nat, t2: nat, f: Faults)
    ensures var (s', ok) := Open(s, path, fd, flags, t1, t2, f); var p := RemoveMountPrefix(path);
            var cached := path in s.client.cache;
            var fetched := f.statOk && p in s.server && f.downloadOk && f.saved != FAILED
                           && !(cached && LocalWins(s.client.cache[path].mtime, s.server[p].mtime));
            && OthersSame(s.client.cache, s'.client.cache, path)
            && (path in s'.client.cache <==> cached || fetched || ok)
            && (path in s'.client.cache ==>
                  s'.client.cache[path] ==
                    if ok && (flags.trunc || !(cached || fetched)) then File([], t2)
                    else if fetched then File(SavedData(s.server[p].data, f.saved), t1)
                    else s.client.cache[path])
  {
  }

  /** In the table a successful open has a new, clean descriptor; a failed one changes nothing. */
  lemma OpenInTable(s: Site, path: string, fd: int, flags: Flags, t1: nat, t2: nat, f: Faults)
    ensures var (s', ok) := Open(s, path, fd, flags, t1, t2, f);
            && DescriptorsSame(s.client, s'.client, fd)
            && (ok ==> fd in s'.client.index.fdToMeta
                       && s'.client.index.fdToMeta[fd] == CacheIndex.FileMeta(path, false))
            && (!ok ==> s'.client.index == s.client.index)
  {
  }

  /** Whatever a client has open, opening a file the server has, or making one with O_CREAT, works when no
      call fails and O_EXCL is not given. */
  lemma OpenWorks(s: Site, path: string, fd: int, flags: Flags, t1: nat, t2: nat)
    requires !flags.excl && (RemoveMountPrefix(path) in s.server || path in s.client.cache || flags.creat)
    ensures Open(s, path, fd, flags, t1, t2, Faults(true, true, true, WHOLE, true)).1
  {
  }

  // ---------------------------------------------------------------------------------------------
  // Who can change a file on the server
  // ---------------------------------------------------------------------------------------------

  /** The step writes back through a descriptor that is dirty on the server's file `p`. */
  ghost predicate StoresDirty(sys: System, step: Step, p: string) {
    && (step.FlushStep? || step.ReleaseStep?) && step.client in sys.clients
    && var c := sys.clients[step.client];
    IsDirty(c, step.fd) && RemoveMountPrefix(PathOf(c, step.fd)) == p
  }

  /** The step opens or creates the server's file `p` with O_TRUNC. */
  predicate Truncates(step: Step, p: string) {
    (step.OpenStep? || step.CreateStep?) && RemoveMountPrefix(step.path) == p && step.flags.trunc
  }

  /** The step opens or creates `p`. */
  predicate Makes(step: Step, p: string) {
    (step.OpenStep? || step.CreateStep?) && RemoveMountPrefix(step.path) == p
  }

  /** One step by one client: no other client changes, no server file is lost, one that is there changes
      only by a writeback through a descriptor dirty on it or by a truncating open or create, and a new one
      appears only by such a writeback, an open or a create. */
  lemma StepChanges(sys: System, step: Step, p: string)
    requires step.client in sys.clients
    ensures var sys' := Next(sys, step);
            && sys'.clients.Keys == sys.clients.Keys
            && (forall c :: c in sys.clients && c != step.client ==> sys'.clients[c] == sys.clients[c])
            && (p in sys.server ==> p in sys'.server)
            && (p in sys.server && sys'.server[p] != sys.server[p] ==> StoresDirty(sys, step, p) || Truncates(step, p))
            && (p !in sys.server && p in sys'.server ==> StoresDirty(sys, step, p) || Makes(step, p))
  {
    var s := SiteOf(sys, step.client);
    match step
    case OpenStep(_, path, fd, flags, t1, t2, f) => OpenOnServer(s, path, fd, flags, t1, t2, f);
    case CreateStep(_, path, fd, flags, t1, t2, f) => CreateEffect(s, path, fd, flags, t1, t2, f);
    case WriteStep(_, fd, buf, offset, t1, ok) =>
    case TruncateStep(_, fd, length, t1, ok) => TruncateEffect(s, PathOf(s.client, fd), fd, length, t1, ok);
    case FlushStep(_, fd, t1, outcome) =>
      FlushEffect(s, PathOf(s.client, fd), fd, t1, outcome);
      WritebackEffect(s, PathOf(s.client, fd), fd, t1, outcome);
    case ReleaseStep(_, fd, t1, outcome) =>
      ReleaseEffect(s, PathOf(s.client, fd), fd, t1, outcome);
      WritebackEffect(s, PathOf(s.client, fd), fd, t1, outcome);
  }

  /** The step writes to or truncates the server's file `p` through a descriptor open on it. */
  ghost predicate Touches(sys: System, step: Step, p: string) {
    && (step.WriteStep? || step.TruncateStep?) && step.client in sys.clients
    && var c := sys.clients[step.client];
    step.fd in c.index.fdToMeta && RemoveMountPrefix(PathOf(c, step.fd)) == p
  }

  ghost predicate CleanOn(c: Client, p: string) {
    forall fd :: IsDirty(c, fd) ==> RemoveMountPrefix(c.index.fdToMeta[fd].path) != p
  }

  /** A descriptor only becomes dirty by a write or truncate through it. */
  lemma StepKeepsClean(sys: System, step: Step, p: string, c: int)
    requires step.client in sys.clients && c in sys.clients && CleanOn(sys.clients[c], p)
    requires c == step.client ==> !Touches(sys, step, p)
    ensures c in Next(sys, step).clients && CleanOn(Next(sys, step).clients[c], p)
  {
    StepChanges(sys, step, p);
    if c == step.client {
      var s := SiteOf(sys, c);
      match step
      case OpenStep(_, path, fd, flags, t1, t2, f) => OpenInTable(s, path, fd, flags, t1, t2, f);
      case CreateStep(_, path, fd, flags, t1, t2, f) =>
        CreateEffect(s, path, fd, flags, t1, t2, f);
        OpenLocalEffect(s, path, fd, flags, t2, f.localOk);
      case WriteStep(_, fd, buf, offset, t1, ok) =>
      case TruncateStep(_, fd, length, t1, ok) => TruncateEffect(s, PathOf(s.client, fd), fd, length, t1, ok);
      case FlushStep(_, fd, t1, outcome) =>
        FlushEffect(s, PathOf(s.client, fd), fd, t1, outcome);
        WritebackEffect(s, PathOf(s.client, fd), fd, t1, outcome);
      case ReleaseStep(_, fd, t1, outcome) =>
        ReleaseEffect(s, PathOf(s.client, fd), fd, t1, outcome);
        WritebackEffect(s, PathOf(s.client, fd), fd, t1, outcome);
    }
  }

  /** The clients in `readers` never write to or truncate `p` in this run, by descriptor or by flag. */
  ghost predicate OnlyRead(sys: System, steps: seq<Step>, p: string, readers: set<int>) {
    steps == [] ||
    var before, step := steps[..|steps| - 1], steps[|steps| - 1];
    && OnlyRead(sys, before, p, readers) && step.client in sys.clients
    && (step.client in readers ==> !Touches(Run(sys, before), step, p) && !Truncates(step, p))
  }

  lemma {:induction false} ReadersStayClean(sys: System, steps: seq<Step>, p: string, readers: set<int>)
    requires OnlyRead(sys, steps, p, readers)
    requires forall c :: c in readers ==> c in sys.clients && CleanOn(sys.clients[c], p)
    ensures Run(sys, steps).clients.Keys == sys.clients.Keys
    ensures forall c :: c in readers ==> CleanOn(Run(sys, steps).clients[c], p)
  {
    if steps != [] {
      var before, step := steps[..|steps| - 1], steps[|steps| - 1];
      ReadersStayClean(sys, before, p, readers);
      StepChanges(Run(sys, before), step, p);
      forall c | c in readers ensures CleanOn(Run(sys, steps).clients[c], p) {
        StepKeepsClean(Run(sys, before), step, p, c);
      }
    }
  }

  /** No lost updates: in every run, clients that only read a file never change it on the server, whatever
      they open, flush, close or fail at. When its last step changes the file, another client took it. */
  lemma ReadersNeverOverwrite(sys: System, steps: seq<Step>, p: string, readers: set<int>)
    requires steps != [] && OnlyRead(sys, steps, p, readers)
    requires forall c :: c in readers ==> c in sys.clients && CleanOn(sys.clients[c], p)
    ensures var before, step := Run(sys, steps[..|steps| - 1]), steps[|steps| - 1];
            step.client in readers && p in before.server ==>
              p in Run(sys, steps).server && Run(sys, steps).server[p] == before.server[p]
  {
    var before, step := steps[..|steps| - 1], steps[|steps| - 1];
    ReadersStayClean(sys, before, p, readers);
    StepChanges(Run(sys, before), step, p);
  }

  /** A file nobody writes to or truncates stays as it is over any run. */
  lemma {:induction false} UnwrittenFileStays(sys: System, steps: seq<Step>, p: string)
    requires p in sys.server && OnlyRead(sys, steps, p, sys.clients.Keys)
    requires forall c :: c in sys.clients ==> CleanOn(sys.clients[c], p)
    ensures p in Run(sys, steps).server && Run(sys, steps).server[p] == sys.server[p]
  {
    if steps != [] {
      UnwrittenFileStays(sys, steps[..|steps| - 1], p);
      ReadersNeverOverwrite(sys, steps, p, sys.clients.Keys);
    }
  }

  /** What one client creates, another can open: after a create that gets past the server, and any run in
      which nobody writes to the file, every undisturbed open by a client with nothing dirty on it reads it:
      empty if it is new or was truncated, otherwise as it was. */
  lemma CreateThenOpen(sys: System, create: Step, between: seq<Step>, open: Step)
    requires Good(sys) && create.CreateStep? && Legal(sys, create)
    requires Allowed(RemoveMountPrefix(create.path) in sys.server, create.flags, create.faults.serverOk)
    requires var created := Next(sys, create); var p := RemoveMountPrefix(create.path);
             && LegalRun(created, between) && OnlyRead(created, between, p, created.clients.Keys)
             && forall c :: c in created.clients ==> CleanOn(created.clients[c], p)
    ensures var now := Run(Next(sys, create), between); var p := RemoveMountPrefix(create.path);
            && p in now.server
            && now.server[p] == (if p in sys.server && !create.flags.trunc then sys.server[p] else File([], create.t1))
            && (CleanOpen(now, open, create.path) ==>
                  var cache := Next(now, open).clients[open.client].cache;
                  create.path in cache && cache[create.path].data == now.server[p].data)
  {
    var created := Next(sys, create);
    var p := RemoveMountPrefix(create.path);
    CreateEffect(SiteOf(sys, create.client), create.path, create.fd, create.flags, create.t1, create.t2, create.faults);
    UnwrittenFileStays(created, between, p);
    StepKeepsGood(sys, create);
    if CleanOpen(Run(created, between), open, create.path) { CloseToOpen(created, between, open); }
  }
}
