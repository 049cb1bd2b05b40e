/** Where the cache protocol fails: runs a client can really make, and what its user sees. */
module Incoherence {
  import opened FileBytes
  import opened CacheIndex
  import opened Mount
  import opened ModTime
  import opened Consistency

  const NAME := "f"
  const PATH := PREFIX + NAME
  const NEW_CLIENT := Client(map[], Index(map[], map[]))
  const NO_FAULTS := Faults(true, true, true, WHOLE, true)
  const READING := Flags(false, false, false)
  const CREATING := Flags(true, false, false)

  function At(k: nat): nat {
    TWO_60 + 1000 * k
  }

  /** One file on the server, two clients that have done nothing yet. */
  function Start(data: Bytes): System {
    System(map[NAME := File(data, TWO_60)], map[1 := NEW_CLIENT, 2 := NEW_CLIENT], TWO_60)
  }

  lemma StartIsGood(data: Bytes)
    ensures Good(Start(data)) && Mounted(PATH) && RemoveMountPrefix(PATH) == NAME
  {
    FreshStartIsGood(Start(data));
    MountedPaths("", NAME);
  }

  function OpenAt(client: int, fd: int, k: nat): Step {
    OpenStep(client, PATH, fd, READING, At(k), At(k), NO_FAULTS)
  }

  /** A client whose descriptors are all closed opens the file and reads `seen`. */
  ghost predicate Reads(sys: System, client: int, fd: int, k: nat, seen: Bytes) {
    && client in sys.clients && sys.clients[client].index.fdToMeta == map[]
    && Open(SiteOf(sys, client), PATH, fd, READING, At(k), At(k), NO_FAULTS).1
    && var cache := Next(sys, OpenAt(client, fd, k)).clients[client].cache; PATH in cache && cache[PATH].data == seen
  }

  /** It reads so whenever it opens the file. */
  ghost predicate AlwaysReads(sys: System, client: int, seen: Bytes) {
    forall fd: int, k: nat :: Reads(sys, client, fd, k, seen)
  }

  /** What a new open reads when nothing is open: the cached copy if it wins, else the server's. */
  lemma ReadsWhich(sys: System, client: int)
    requires client in sys.clients && sys.clients[client].index.fdToMeta == map[] && NAME in sys.server
    ensures var cache := sys.clients[client].cache;
            AlwaysReads(sys, client,
              if PATH in cache && LocalWins(cache[PATH].mtime, sys.server[NAME].mtime) then cache[PATH].data
              else sys.server[NAME].data)
  {
    MountedPaths("", NAME);
  }

  // ---------------------------------------------------------------------------------------------
  // Create over a file that is already on the server
  // ---------------------------------------------------------------------------------------------

  const CREATE := CreateStep(1, PATH, 3, CREATING, At(1), At(1), NO_FAULTS)

  function Created(data: Bytes): System {
    Next(Start(data), CREATE)
  }

  function CreatedAndClosed(data: Bytes): System {
    Next(Created(data), ReleaseStep(1, 3, At(2), Stored))
  }

  lemma CreatedIs(data: Bytes)
    ensures Created(data) == System(Start(data).server,
              map[1 := Client(map[PATH := File([], At(1))], Index(map[3 := FileMeta(PATH, false)], map[PATH := 1])),
                  2 := NEW_CLIENT], At(1))
  {
    MountedPaths("", NAME);
  }

  lemma CreatedAndClosedIs(data: Bytes)
    ensures CreatedAndClosed(data) == System(Start(data).server,
              map[1 := Client(map[PATH := File([], At(1))], Index(map[], map[])), 2 := NEW_CLIENT], At(2))
  {
    CreatedIs(data);
  }

  /** From a fresh start, one create with O_CREAT alone breaks coherence for every non-empty server file:
      after the release a clean reopen by that client reads nothing, whenever it comes, though the server
      has the data and any other client reads it. */
  lemma CreateHidesData(data: Bytes)
    requires data != []
    ensures Good(Start(data)) && CreateBreaks(SiteOf(Start(data), 1), PATH, CREATING, At(1), NO_FAULTS)
    ensures !Good(Created(data)) && CreatedAndClosed(data).server[NAME].data == data
    ensures AlwaysReads(CreatedAndClosed(data), 1, []) && AlwaysReads(CreatedAndClosed(data), 2, data)
  {
    StartIsGood(data);
    CreatedIs(data);
    CreatedAndClosedIs(data);
    NewerLocalWins(At(1), TWO_60);
    CreateBreaksWhen(SiteOf(Start(data), 1), PATH, CREATING, At(1), NO_FAULTS);
    assert !CoherentAt(SiteOf(Created(data), 1), PATH);
    ReadsWhich(CreatedAndClosed(data), 1);
    ReadsWhich(CreatedAndClosed(data), 2);
  }

  // ---------------------------------------------------------------------------------------------
  // A release after a writeback that silently stored nothing
  // ---------------------------------------------------------------------------------------------

  function OpenedByOne(data: Bytes): System {
    Next(Start(data), OpenAt(1, 3, 1))
  }

  function WriteAt(buf: Bytes, offset: nat): Step {
    WriteStep(1, 3, buf, offset, At(2), true)
  }

  function Written(data: Bytes, buf: Bytes, offset: nat): System {
    Next(OpenedByOne(data), WriteAt(buf, offset))
  }

  /** The ways a writeback stores nothing without the client being told. */
  predicate Silent(outcome: Outcome) {
    outcome == RenameLost || outcome == Unreadable
  }

  function LosingRelease(outcome: Outcome): Step {
    ReleaseStep(1, 3, At(3), outcome)
  }

  lemma OpenedByOneIs(data: Bytes)
    ensures OpenedByOne(data) == System(Start(data).server,
              map[1 := Client(map[PATH := File(data, At(1))], Index(map[3 := FileMeta(PATH, false)], map[PATH := 1])),
                  2 := NEW_CLIENT], At(1))
    ensures Legal(Start(data), OpenAt(1, 3, 1))
  {
    MountedPaths("", NAME);
    FilteredOpenBreaksWhen(SiteOf(Start(data), 1), PATH, READING, At(1), NO_FAULTS);
  }

  lemma WrittenIs(data: Bytes, buf: Bytes, offset: nat)
    requires buf != []
    ensures Written(data, buf, offset) == System(Start(data).server,
              map[1 := Client(map[PATH := File(Pwrite(data, buf, offset), At(2))],
                              Index(map[3 := FileMeta(PATH, true)], map[PATH := 1])),
                  2 := NEW_CLIENT], At(2))
    ensures Legal(OpenedByOne(data), WriteAt(buf, offset))
  {
    OpenedByOneIs(data);
    var file := File(Pwrite(data, buf, offset), At(2));
    assert map[PATH := File(data, At(1))][PATH := file] == map[PATH := file];
    assert map[3 := FileMeta(PATH, false)][3 := FileMeta(PATH, true)] == map[3 := FileMeta(PATH, true)];
  }

  lemma ReleasedIs(data: Bytes, buf: Bytes, offset: nat, outcome: Outcome)
    requires buf != [] && Silent(outcome)
    ensures Next(Written(data, buf, offset), LosingRelease(outcome)) == System(Start(data).server,
              map[1 := Client(map[PATH := File(Pwrite(data, buf, offset), At(2))], Index(map[], map[])),
                2 := NEW_CLIENT], At(3))
  {
    WrittenIs(data, buf, offset);
  }

  /** From a fresh start: open, write something that changes the file, and release while the server's
      rename fails or the cached file cannot be read. The release reports success, nothing is dirty, and a
      clean reopen, whenever it comes, reads the lost write by this client and the old contents, which
      the server has, by another. */
  lemma LostWritebackSplitsClients(data: Bytes, buf: Bytes, offset: nat, outcome: Outcome)
    requires Silent(outcome) && buf != [] && Pwrite(data, buf, offset) != data
    ensures Good(Start(data)) && Legal(Start(data), OpenAt(1, 3, 1)) && Legal(OpenedByOne(data), WriteAt(buf, offset))
    ensures var before := Written(data, buf, offset); var after := Next(before, LosingRelease(outcome));
            && Good(before) && ReleaseBreaks(SiteOf(before, 1), PATH, 3, outcome)
            && Release(SiteOf(before, 1), PATH, 3, At(3), outcome).1 && !Good(after) && after.server[NAME].data == data
            && AlwaysReads(after, 1, Pwrite(data, buf, offset)) && AlwaysReads(after, 2, data)
  {
    StartIsGood(data);
    OpenedByOneIs(data);
    WrittenIs(data, buf, offset);
    StepKeepsGood(Start(data), OpenAt(1, 3, 1));
    StepKeepsGood(OpenedByOne(data), WriteAt(buf, offset));
    LostWriteback(data, buf, offset, outcome);
  }

  lemma LostWriteback(data: Bytes, buf: Bytes, offset: nat, outcome: Outcome)
    requires Silent(outcome) && buf != [] && Pwrite(data, buf, offset) != data
    ensures var before := Written(data, buf, offset); var after := Next(before, LosingRelease(outcome));
            && ReleaseBreaks(SiteOf(before, 1), PATH, 3, outcome)
            && Release(SiteOf(before, 1), PATH, 3, At(3), outcome).1 && !Good(after) && after.server[NAME].data == data
            && AlwaysReads(after, 1, Pwrite(data, buf, offset)) && AlwaysReads(after, 2, data)
  {
    var before := Written(data, buf, offset);
    var after := Next(before, LosingRelease(outcome));
    MountedPaths("", NAME);
    WrittenIs(data, buf, offset);
    ReleasedIs(data, buf, offset, outcome);
    NewerLocalWins(At(2), TWO_60);
    assert !CoherentAt(SiteOf(after, 1), PATH);
    ReadsWhich(after, 1);
    ReadsWhich(after, 2);
  }

  // ---------------------------------------------------------------------------------------------
  // Reads and writes that come short unnoticed
  // ---------------------------------------------------------------------------------------------

  function ShortOpen(bytes: nat): Step {
    OpenStep(1, PATH, 3, READING, At(1), At(1), Faults(true, true, true, PART(bytes), true))
  }

  function ShortlySaved(data: Bytes, bytes: nat): System {
    Next(Next(Start(data), ShortOpen(bytes)), ReleaseStep(1, 3, At(2), Stored))
  }

  lemma ShortlySavedIs(data: Bytes, bytes: nat)
    requires bytes < |data|
    ensures ShortlySaved(data, bytes) == System(Start(data).server,
              map[1 := Client(map[PATH := File(data[..bytes], At(1))], Index(map[], map[])), 2 := NEW_CLIENT], At(2))
  {
    MountedPaths("", NAME);
  }

  /** From a fresh start: an open whose download is saved short succeeds, and after the release the client
      goes on reading the short copy, while the server has the whole file and another client reads it. */
  lemma ShortSaveIsKept(data: Bytes, bytes: nat)
    requires bytes < |data|
    ensures var s := SiteOf(Start(data), 1); var faults := ShortOpen(bytes).faults;
            Good(Start(data)) && FetchBreaks(s, PATH, faults) && Open(s, PATH, 3, READING, At(1), At(1), faults).1
    ensures var after := ShortlySaved(data, bytes);
            !Good(after) && after.server[NAME].data == data
            && AlwaysReads(after, 1, data[..bytes]) && AlwaysReads(after, 2, data)
  {
    var after := ShortlySaved(data, bytes);
    StartIsGood(data);
    ShortlySavedIs(data, bytes);
    NewerLocalWins(At(1), TWO_60);
    assert !CoherentAt(SiteOf(after, 1), PATH);
    ReadsWhich(after, 1);
    ReadsWhich(after, 2);
  }

  lemma ShortlyReadIs(data: Bytes, buf: Bytes, offset: nat, bytes: nat)
    requires buf != []
    ensures var file := Pwrite(data, buf, offset);
            Next(Written(data, buf, offset), ReleaseStep(1, 3, At(3), StoredPart(bytes))) ==
              System(map[NAME := File(SentData(file, StoredPart(bytes)), At(3))],
                map[1 := Client(map[PATH := File(file, At(2))], Index(map[], map[])), 2 := NEW_CLIENT], At(3))
  {
    MountedPaths("", NAME);
    WrittenIs(data, buf, offset);
    var file := File(SentData(Pwrite(data, buf, offset), StoredPart(bytes)), At(3));
    assert map[NAME := File(data, TWO_60)][NAME := file] == map[NAME := file];
  }

  /** A writeback that reads its file short loses data for everyone but breaks nothing: the release
      succeeds, coherence holds, and every client, the writer included, reads the zero-filled buffer. */
  lemma ShortReadIsServed(data: Bytes, buf: Bytes, offset: nat, bytes: nat)
    requires buf != []
    ensures var release := ReleaseStep(1, 3, At(3), StoredPart(bytes));
            var after := Next(Written(data, buf, offset), release);
            var sent := SentData(Pwrite(data, buf, offset), StoredPart(bytes));
            && Good(Written(data, buf, offset)) && Legal(Written(data, buf, offset), release) && Good(after)
            && after.server[NAME].data == sent && AlwaysReads(after, 1, sent) && AlwaysReads(after, 2, sent)
  {
    var release := ReleaseStep(1, 3, At(3), StoredPart(bytes));
    StartIsGood(data);
    OpenedByOneIs(data);
    WrittenIs(data, buf, offset);
    StepKeepsGood(Start(data), OpenAt(1, 3, 1));
    StepKeepsGood(OpenedByOne(data), WriteAt(buf, offset));
    StepKeepsGood(Written(data, buf, offset), release);
    ShortlyReadIs(data, buf, offset, bytes);
    ContestOfEpoch(At(2), At(3));
    ReadsWhich(Next(Written(data, buf, offset), release), 1);
    ReadsWhich(Next(Written(data, buf, offset), release), 2);
  }

  // ---------------------------------------------------------------------------------------------
  // A file another client unlinks
  // ---------------------------------------------------------------------------------------------

  function OpenedAndClosed(data: Bytes): System {
    Next(OpenedByOne(data), ReleaseStep(1, 3, At(2), Stored))
  }

  /** The server after another client's unlink; nobody's cache is told. */
  function Unlinked(data: Bytes): System {
    var sys := OpenedAndClosed(data);
    sys.(server := sys.server - {NAME})
  }

  lemma UnlinkedIs(data: Bytes)
    ensures Unlinked(data) == System(map[],
              map[1 := Client(map[PATH := File(data, At(1))], Index(map[], map[])), 2 := NEW_CLIENT], At(2))
    ensures Good(Unlinked(data))
  {
    OpenedByOneIs(data);
    var sys := Unlinked(data);
    EveryRunAgrees([]);
    forall c | c in sys.clients ensures Coherent(SiteOf(sys, c)) {
      forall p ensures CoherentAt(SiteOf(sys, c), p) {}
    }
  }

  /** A client that has read a file and closed it still reads the old contents after another client has
      unlinked it: the open is legal and clean, makes an empty file on the server, and keeps the copy. */
  lemma UnlinkedFileIsStillRead(data: Bytes)
    requires data != []
    ensures var sys := Unlinked(data);
            && Good(sys) && Legal(sys, OpenAt(1, 4, 3)) && AlwaysReads(sys, 1, data)
            && Next(sys, OpenAt(1, 4, 3)).server == map[NAME := File([], At(3))]
  {
    MountedPaths("", NAME);
    UnlinkedIs(data);
    FilteredOpenBreaksWhen(SiteOf(Unlinked(data), 1), PATH, READING, At(3), NO_FAULTS);
  }
}
