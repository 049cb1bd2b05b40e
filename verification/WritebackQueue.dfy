/** The queue of delayed writebacks: watchdog, per-path drain and the final drain at destruction. */
module WritebackQueue {
  import opened FileBytes
  import opened CacheIndex
  import opened Mount

  datatype Kind = CLOSE | FLUSH

  datatype WritebackOp = WritebackOp(path: string, fd: int, kind: Kind)

  /** What a writeback reads and changes: server files, cached files and the descriptor index. */
  datatype World = World(server: map<string, Bytes>, cache: map<string, Bytes>, index: Index)

  // ---------------------------------------------------------------------------------------------
  // Applying one operation
  // ---------------------------------------------------------------------------------------------

  /** Writeback of a descriptor: skipped when the descriptor is clean or unknown, disabled when its
      cached file cannot be read. */
  function WritebackToServer(w: World, path: string, fd: int): World {
    var fds := w.index.fdToMeta;
    if fd !in fds || !fds[fd].isDirty then w
    else if fds[fd].path !in w.cache then w
    else w.(server := w.server[RemoveMountPrefix(path) := w.cache[fds[fd].path]])
  }

  function Release(w: World, path: string, fd: int): World {
    if fd <= 0 then w else
    var w' := WritebackToServer(w, path, fd);
    w'.(index := Closed(w'.index, fd))
  }

  function Apply(w: World, op: WritebackOp): World {
    match op.kind
    case CLOSE => Release(w, op.path, op.fd)
    case FLUSH => WritebackToServer(w, op.path, op.fd)
  }

  function ApplyAll(w: World, ops: seq<WritebackOp>): World {
    if ops == [] then w else Apply(ApplyAll(w, ops[..|ops| - 1]), ops[|ops| - 1])
  }

  // ---------------------------------------------------------------------------------------------
  // What a batch of operations does, whatever its order
  // ---------------------------------------------------------------------------------------------

  ghost predicate Targeted(w: World, op: WritebackOp) {
    && op.fd > 0 && Mounted(op.path)
    && (op.fd in w.index.fdToMeta ==> w.index.fdToMeta[op.fd].path == op.path)
  }

  /** `op` carries the cached file of `path` to the server when applied in `w`. */
  ghost predicate Stores(w: World, op: WritebackOp, path: string) {
    && op.path == path && path in w.cache
    && op.fd in w.index.fdToMeta && w.index.fdToMeta[op.fd].isDirty
  }

  ghost predicate Closes(op: WritebackOp, fd: int) {
    op.kind == CLOSE && op.fd == fd
  }

  ghost predicate OutcomeAt(w: World, w': World, ops: seq<WritebackOp>, path: string) {
    var s := RemoveMountPrefix(path);
    if exists op :: op in ops && Stores(w, op, path) then
      s in w'.server && w'.server[s] == w.cache[path]
    else
      (s in w'.server <==> s in w.server) && (s in w.server ==> w'.server[s] == w.server[s])
  }

  ghost predicate TableAt(w: World, w': World, ops: seq<WritebackOp>, fd: int) {
    var was, now := w.index.fdToMeta, w'.index.fdToMeta;
    && (fd in now <==> fd in was && !exists op :: op in ops && Closes(op, fd))
    && (fd in now ==> now[fd] == was[fd])
  }

  /** Reference description of a finished batch: the server holds the cached contents of exactly the
      paths that had a dirty descriptor in the batch, and exactly the closed descriptors are gone. */
  ghost predicate Outcome(w: World, w': World, ops: seq<WritebackOp>) {
    && w'.cache == w.cache
    && (forall path :: Mounted(path) ==> OutcomeAt(w, w', ops, path))
    && (forall fd :: TableAt(w, w', ops, fd))
    && (Agrees(w.index) ==> Agrees(w'.index))
  }

  lemma TableStep(w: World, mid: World, ops: seq<WritebackOp>, fd: int)
    requires ops != [] && Targeted(w, ops[|ops| - 1]) && TableAt(w, mid, ops[..|ops| - 1], fd)
    ensures TableAt(w, Apply(mid, ops[|ops| - 1]), ops, fd)
  {
    var n := |ops| - 1;
    assert ops == ops[..n] + [ops[n]];
    if Closes(ops[n], fd) {
      assert ops[n] in ops;
    } else if op :| op in ops && Closes(op, fd) {
      assert op in ops[..n];
    }
  }

  lemma ServerStep(w: World, mid: World, ops: seq<WritebackOp>, path: string)
    requires ops != [] && Mounted(path) && mid.cache == w.cache
    requires Targeted(w, ops[|ops| - 1]) && TableAt(w, mid, ops[..|ops| - 1], ops[|ops| - 1].fd)
    requires forall op :: op in ops ==> Targeted(w, op)
    requires OutcomeAt(w, mid, ops[..|ops| - 1], path)
    ensures OutcomeAt(w, Apply(mid, ops[|ops| - 1]), ops, path)
  {
    var n := |ops| - 1;
    var last := ops[n];
    assert ops == ops[..n] + [last];
    MountedPathsDiffer(path, last.path);
    if Stores(w, last, path) {
      assert last in ops;
      if last.fd !in mid.index.fdToMeta {
        var op :| op in ops[..n] && Closes(op, last.fd);
        assert op in ops && Targeted(w, op);
        assert Stores(w, op, path);
      }
    } else if op :| op in ops && Stores(w, op, path) {
      assert op in ops[..n];
    }
  }

  lemma {:induction false} BatchOutcome(w: World, ops: seq<WritebackOp>)
    requires forall op :: op in ops ==> Targeted(w, op)
    ensures Outcome(w, ApplyAll(w, ops), ops)
  {
    if ops != [] {
      var n := |ops| - 1;
      var mid := ApplyAll(w, ops[..n]);
      BatchOutcome(w, ops[..n]);
      assert Targeted(w, ops[n]);
      forall fd ensures TableAt(w, Apply(mid, ops[n]), ops, fd) {
        assert TableAt(w, mid, ops[..n], fd);
        TableStep(w, mid, ops, fd);
      }
      forall path | Mounted(path) ensures OutcomeAt(w, Apply(mid, ops[n]), ops, path) {
        assert TableAt(w, mid, ops[..n], ops[n].fd);
        ServerStep(w, mid, ops, path);
      }
      if Agrees(mid.index) { CloseKeepsAgreement(mid.index, ops[n].fd); }
    }
  }

  /** An operation whose descriptor is not open, or a flush through a clean one, does nothing at all; a
      close through a clean one only forgets it. */
  lemma IdleOperations(w: World, op: WritebackOp)
    ensures op.fd !in w.index.fdToMeta ==> Apply(w, op) == w
    ensures op.kind == FLUSH && op.fd in w.index.fdToMeta && !w.index.fdToMeta[op.fd].isDirty ==> Apply(w, op) == w
    ensures op.kind == CLOSE && op.fd <= 0 ==> Apply(w, op) == w
    ensures op.kind == CLOSE && op.fd > 0 && op.fd in w.index.fdToMeta && !w.index.fdToMeta[op.fd].isDirty ==>
              Apply(w, op) == w.(index := Closed(w.index, op.fd))
  {
  }

  lemma AgreementDeterminesCounts(a: Index, b: Index)
    requires Agrees(a) && Agrees(b) && a.fdToMeta == b.fdToMeta
    ensures a == b
  {
    forall p ensures (p in a.filepathToFreq <==> p in b.filepathToFreq)
                     && (p in a.filepathToFreq ==> a.filepathToFreq[p] == b.filepathToFreq[p])
    {
      assert AgreesAt(a, p) && AgreesAt(b, p);
    }
    assert a.filepathToFreq == b.filepathToFreq;
  }

  lemma SameServer(w: World, a: World, b: World, xs: seq<WritebackOp>, ys: seq<WritebackOp>)
    requires Outcome(w, a, xs) && Outcome(w, b, ys)
    requires forall op :: op in xs <==> op in ys
    ensures a.server == b.server
  {
    forall s ensures (s in a.server <==> s in b.server) && (s in a.server ==> a.server[s] == b.server[s]) {
      var path := PREFIX + s;
      MountedPaths("", s);
      assert OutcomeAt(w, a, xs, path) && OutcomeAt(w, b, ys, path);
      assert forall op :: op in xs && Stores(w, op, path) <==> op in ys && Stores(w, op, path);
    }
  }

  lemma SameTable(w: World, a: World, b: World, xs: seq<WritebackOp>, ys: seq<WritebackOp>)
    requires Outcome(w, a, xs) && Outcome(w, b, ys)
    requires forall op :: op in xs <==> op in ys
    ensures a.index.fdToMeta == b.index.fdToMeta
  {
    forall fd ensures (fd in a.index.fdToMeta <==> fd in b.index.fdToMeta)
                      && (fd in a.index.fdToMeta ==> a.index.fdToMeta[fd] == b.index.fdToMeta[fd])
    {
      assert TableAt(w, a, xs, fd) && TableAt(w, b, ys, fd);
      assert forall op :: op in xs && Closes(op, fd) <==> op in ys && Closes(op, fd);
    }
  }

  /** From a fixed local cache the order of the pending operations does not matter: two batches with
      the same operations end with the same server files, descriptor table and open counts. */
  lemma Confluence(w: World, xs: seq<WritebackOp>, ys: seq<WritebackOp>)
    requires Agrees(w.index) && forall op :: op in xs ==> Targeted(w, op)
    requires forall op :: op in xs <==> op in ys
    ensures ApplyAll(w, xs) == ApplyAll(w, ys)
  {
    var a, b := ApplyAll(w, xs), ApplyAll(w, ys);
    BatchOutcome(w, xs);
    BatchOutcome(w, ys);
    SameServer(w, a, b, xs, ys);
    SameTable(w, a, b, xs, ys);
    AgreementDeterminesCounts(a.index, b.index);
  }

  // ---------------------------------------------------------------------------------------------
  // The queue
  // ---------------------------------------------------------------------------------------------

  function OnPath(ops: seq<WritebackOp>, path: string): (r: seq<WritebackOp>) {
    if ops == [] then [] else
    var last := ops[|ops| - 1];
    if last.path == path then OnPath(ops[..|ops| - 1], path) + [last] else OnPath(ops[..|ops| - 1], path)
  }

  function OffPath(ops: seq<WritebackOp>, path: string): (r: seq<WritebackOp>)
    ensures |r| <= |ops|
  {
    if ops == [] then [] else
    var last := ops[|ops| - 1];
    if last.path == path then OffPath(ops[..|ops| - 1], path) else OffPath(ops[..|ops| - 1], path) + [last]
  }

  /** `added` and `applied` record every operation ever queued and ever applied, in order. */
  datatype Queue = Queue(pending: seq<WritebackOp>, added: seq<WritebackOp>, applied: seq<WritebackOp>)

  datatype Event = Add(op: WritebackOp) | PopOne | OnFileOp(path: string)

  function Added(q: Queue, op: WritebackOp): Queue {
    q.(pending := q.pending + [op], added := q.added + [op])
  }

  function Popped(q: Queue): Queue {
    if q.pending == [] then q
    else q.(pending := q.pending[1..], applied := q.applied + [q.pending[0]])
  }

  function Drained(q: Queue, path: string): Queue {
    q.(pending := OffPath(q.pending, path), applied := q.applied + OnPath(q.pending, path))
  }

  /** The destructor applies what is left; the list itself dies with the object. */
  function Destroyed(q: Queue): Queue {
    q.(pending := [], applied := q.applied + q.pending)
  }

  function Step(q: Queue, e: Event): Queue {
    match e
    case Add(op) => Added(q, op)
    case PopOne => Popped(q)
    case OnFileOp(path) => Drained(q, path)
  }

  const EMPTY := Queue([], [], [])

  function Run(events: seq<Event>): Queue {
    if events == [] then EMPTY else Step(Run(events[..|events| - 1]), events[|events| - 1])
  }

  lemma {:induction false} OnPathConcat(xs: seq<WritebackOp>, ys: seq<WritebackOp>, path: string)
    ensures OnPath(xs + ys, path) == OnPath(xs, path) + OnPath(ys, path)
  {
    if ys == [] {
      assert xs + ys == xs;
    } else {
      var n := |ys| - 1;
      assert (xs + ys)[..|xs| + n] == xs + ys[..n];
      OnPathConcat(xs, ys[..n], path);
    }
  }

  lemma {:induction false} SplitCounts(ops: seq<WritebackOp>, path: string)
    ensures multiset(OnPath(ops, path)) + multiset(OffPath(ops, path)) == multiset(ops)
  {
    if ops != [] {
      var n := |ops| - 1;
      SplitCounts(ops[..n], path);
      assert ops == ops[..n] + [ops[n]];
    }
  }

  /** The two parts hold the operations on the path and those off it. */
  lemma {:induction false} PartsDivide(ops: seq<WritebackOp>, path: string, op: WritebackOp)
    ensures op in OnPath(ops, path) <==> op in ops && op.path == path
    ensures op in OffPath(ops, path) <==> op in ops && op.path != path
  {
    if ops != [] {
      var n := |ops| - 1;
      PartsDivide(ops[..n], path, op);
      assert ops == ops[..n] + [ops[n]];
    }
  }

  /** Both keep the order: an operation comes right after those of its part that came before it. */
  lemma {:induction false} OnPathInOrder(ops: seq<WritebackOp>, path: string, i: nat)
    requires i < |ops| && ops[i].path == path
    ensures |OnPath(ops[..i], path)| < |OnPath(ops, path)| && OnPath(ops, path)[|OnPath(ops[..i], path)|] == ops[i]
    ensures OnPath(ops[..i], path) <= OnPath(ops, path)
  {
    if i < |ops| - 1 {
      OnPathInOrder(ops[..|ops| - 1], path, i);
      assert ops[..|ops| - 1][..i] == ops[..i];
    }
  }

  lemma {:induction false} OffPathInOrder(ops: seq<WritebackOp>, path: string, i: nat)
    requires i < |ops| && ops[i].path != path
    ensures |OffPath(ops[..i], path)| < |OffPath(ops, path)| && OffPath(ops, path)[|OffPath(ops[..i], path)|] == ops[i]
    ensures OffPath(ops[..i], path) <= OffPath(ops, path)
  {
    if i < |ops| - 1 {
      OffPathInOrder(ops[..|ops| - 1], path, i);
      assert ops[..|ops| - 1][..i] == ops[..i];
    }
  }

  lemma OnPathOne(op: WritebackOp, path: string)
    ensures OnPath([op], path) == if op.path == path then [op] else []
  {
    assert [op][..0] == [];
  }

  lemma {:induction false} SplitOn(ops: seq<WritebackOp>, path: string, other: string)
    ensures OnPath(OnPath(ops, path), other) == if other == path then OnPath(ops, path) else []
  {
    if ops != [] {
      var n := |ops| - 1;
      SplitOn(ops[..n], path, other);
      OnPathConcat(OnPath(ops[..n], path), [ops[n]], other);
      OnPathOne(ops[n], other);
    }
  }

  lemma {:induction false} SplitOff(ops: seq<WritebackOp>, path: string, other: string)
    ensures OnPath(OffPath(ops, path), other) == if other == path then [] else OnPath(ops, other)
  {
    if ops != [] {
      var n := |ops| - 1;
      SplitOff(ops[..n], path, other);
      OnPathConcat(OffPath(ops[..n], path), [ops[n]], other);
      OnPathOne(ops[n], other);
    }
  }

  ghost predicate Conserved(q: Queue) {
    && multiset(q.applied) + multiset(q.pending) == multiset(q.added)
    && forall path :: OnPath(q.applied, path) + OnPath(q.pending, path) == OnPath(q.added, path)
  }

  lemma DrainKeepsPath(q: Queue, path: string, other: string)
    ensures OnPath(Drained(q, path).applied, other) + OnPath(Drained(q, path).pending, other) ==
            OnPath(q.applied, other) + OnPath(q.pending, other)
  {
    OnPathConcat(q.applied, OnPath(q.pending, path), other);
    SplitOn(q.pending, path, other);
    SplitOff(q.pending, path, other);
  }

  lemma DrainConserves(q: Queue, path: string)
    requires Conserved(q)
    ensures Conserved(Drained(q, path))
  {
    var q' := Drained(q, path);
    forall p ensures OnPath(q'.applied, p) + OnPath(q'.pending, p) == OnPath(q'.added, p) {
      DrainKeepsPath(q, path, p);
    }
    SplitCounts(q.pending, path);
    assert multiset(q'.applied) + multiset(q'.pending) ==
           multiset(q.applied) + (multiset(OnPath(q.pending, path)) + multiset(OffPath(q.pending, path)));
  }

  lemma AddConserves(q: Queue, op: WritebackOp)
    requires Conserved(q)
    ensures Conserved(Added(q, op))
  {
    forall p ensures OnPath(q.applied, p) + OnPath(Added(q, op).pending, p) == OnPath(Added(q, op).added, p) {
      OnPathConcat(q.pending, [op], p);
      OnPathConcat(q.added, [op], p);
    }
  }

  lemma PopConserves(q: Queue)
    requires Conserved(q)
    ensures Conserved(Popped(q))
  {
    if q.pending != [] {
      assert q.pending == [q.pending[0]] + q.pending[1..];
      forall p ensures OnPath(Popped(q).applied, p) + OnPath(Popped(q).pending, p) == OnPath(q.added, p) {
        OnPathConcat(q.applied, [q.pending[0]], p);
        OnPathConcat([q.pending[0]], q.pending[1..], p);
      }
    }
  }

  /** In every interleaving of adds, watchdog pops and drains nothing is lost, duplicated or applied
      out of its path's order. */
  lemma {:induction false} EveryRunConserves(events: seq<Event>)
    ensures Conserved(Run(events))
  {
    if events != [] {
      var n := |events| - 1;
      EveryRunConserves(events[..n]);
      var q := Run(events[..n]);
      match events[n]
      case Add(op) => AddConserves(q, op);
      case PopOne => PopConserves(q);
      case OnFileOp(path) => DrainConserves(q, path);
    }
  }

  /** A drain leaves nothing pending for its path and keeps what is pending for the others. */
  lemma DrainEmptiesPath(q: Queue, path: string, other: string)
    ensures OnPath(Drained(q, path).pending, path) == []
    ensures other != path ==> OnPath(Drained(q, path).pending, other) == OnPath(q.pending, other)
  {
    SplitOff(q.pending, path, path);
    SplitOff(q.pending, path, other);
  }

  /** The operations a run adds, in order. */
  function AddsIn(events: seq<Event>): seq<WritebackOp> {
    if events == [] then []
    else AddsIn(events[..|events| - 1]) + if events[|events| - 1].Add? then [events[|events| - 1].op] else []
  }

  lemma {:induction false} EveryAddIsRecorded(events: seq<Event>)
    ensures Run(events).added == AddsIn(events)
  {
    if events != [] { EveryAddIsRecorded(events[..|events| - 1]); }
  }

  function Pops(events: seq<Event>): nat {
    if events == [] then 0 else Pops(events[..|events| - 1]) + if events[|events| - 1].PopOne? then 1 else 0
  }

  predicate NoAdds(events: seq<Event>) {
    forall i :: 0 <= i < |events| ==> !events[i].Add?
  }

  /** Without adds every pop takes an operation off the queue until it is empty, drains or not. */
  lemma {:induction false} PopsShrink(events: seq<Event>, more: seq<Event>)
    requires NoAdds(more)
    ensures |Run(events + more).pending| <= Max(0, |Run(events).pending| - Pops(more))
    ensures Run(events + more).added == Run(events).added
  {
    if more == [] {
      assert events + more == events;
    } else {
      var n := |more| - 1;
      assert (events + more)[..|events| + n] == events + more[..n];
      PopsShrink(events, more[..n]);
    }
  }

  /** Everything ever added has been applied exactly once, in its path's order, and nothing is pending. */
  ghost predicate Done(q: Queue) {
    && q.pending == [] && multiset(q.applied) == multiset(q.added)
    && forall path :: OnPath(q.applied, path) == OnPath(q.added, path)
  }

  lemma EmptyQueueIsDone(q: Queue)
    requires Conserved(q) && q.pending == []
    ensures Done(q)
  {
    forall path ensures OnPath(q.applied, path) == OnPath(q.added, path) {
      assert OnPath(q.pending, path) == [];
    }
  }

  /** The watchdog gets everything done: as many pops as there are operations pending, with nothing added,
      leave none pending, and every operation ever added has been applied exactly once, in path order. */
  lemma WatchdogFinishes(events: seq<Event>, more: seq<Event>)
    requires NoAdds(more) && Pops(more) >= |Run(events).pending|
    ensures Done(Run(events + more)) && Run(events + more).added == AddsIn(events)
  {
    PopsShrink(events, more);
    EveryAddIsRecorded(events);
    RunIsDone(events + more);
  }

  lemma RunIsDone(events: seq<Event>)
    requires Run(events).pending == []
    ensures Done(Run(events))
  {
    EveryRunConserves(events);
    EmptyQueueIsDone(Run(events));
  }

  /** After destruction every operation ever added has been applied exactly once, in its path's order. */
  lemma DestructionAppliesEverything(events: seq<Event>)
    ensures Done(Destroyed(Run(events))) && Destroyed(Run(events)).added == AddsIn(events)
  {
    var q := Run(events);
    EveryRunConserves(events);
    EveryAddIsRecorded(events);
    forall path ensures OnPath(Destroyed(q).applied, path) == OnPath(q.added, path) {
      OnPathConcat(q.applied, q.pending, path);
    }
  }

  /** Whatever the watchdog and the drains did, a destroyed queue has left the server, the descriptor
      table and the counts as plain first-in first-out application would have. */
  lemma ReorderingIsInvisible(w: World, events: seq<Event>)
    requires Agrees(w.index) && forall op :: op in Run(events).added ==> Targeted(w, op)
    ensures ApplyAll(w, Destroyed(Run(events)).applied) == ApplyAll(w, Run(events).added)
  {
    var q := Destroyed(Run(events));
    DestructionAppliesEverything(events);
    forall op ensures op in q.applied <==> op in q.added {
      assert op in multiset(q.applied) <==> op in multiset(q.added);
    }
    Confluence(w, q.added, q.applied);
  }

  lemma {:induction false} ApplyAllConcat(w: World, xs: seq<WritebackOp>, ys: seq<WritebackOp>)
    ensures ApplyAll(w, xs + ys) == ApplyAll(ApplyAll(w, xs), ys)
  {
    if ys == [] {
      assert xs + ys == xs;
    } else {
      assert (xs + ys)[..|xs + ys| - 1] == xs + ys[..|ys| - 1];
      ApplyAllConcat(w, xs, ys[..|ys| - 1]);
    }
  }

  lemma ApplyOneMore(w: World, ops: seq<WritebackOp>, op: WritebackOp)
    ensures ApplyAll(w, ops + [op]) == Apply(ApplyAll(w, ops), op)
  {
    assert (ops + [op])[..|ops|] == ops;
  }

  /** The reorder manager. `world` stands for the server, the cache directory and the cache manager
      its operations reach; `added`, `applied` and `start` only record history. */
  class WowWritebackReorderManager {
    var pendingOps: seq<WritebackOp>
    var world: World
    ghost var added: seq<WritebackOp>
    ghost var applied: seq<WritebackOp>
    ghost var start: World

    ghost function State(): Queue
      reads this
    {
      Queue(pendingOps, added, applied)
    }

    ghost predicate Valid()
      reads this
    {
      Conserved(State()) && world == ApplyAll(start, applied)
    }

    constructor (world: World)
      ensures Valid() && State() == EMPTY && this.world == start == world
    {
      pendingOps, added, applied := [], [], [];
      this.world, start := world, world;
    }

    method AddNewWriteback(path: string, fd: int, isClose: bool)
      requires Valid()
      modifies this
      ensures Valid() && start == old(start) && world == old(world) && applied == old(applied)
      ensures var op := WritebackOp(path, fd, if isClose then CLOSE else FLUSH);
              pendingOps == old(pendingOps) + [op] && added == old(added) + [op] && State() == Added(old(State()), op)
    {
      var op := WritebackOp(path, fd, if isClose then CLOSE else FLUSH);
      AddConserves(State(), op);
      pendingOps := pendingOps + [op];
      added := added + [op];
    }

    method PopOne()
      requires Valid()
      modifies this
      ensures Valid() && start == old(start) && added == old(added) && State() == Popped(old(State()))
      ensures old(pendingOps) == [] ==> pendingOps == [] && applied == old(applied) && world == old(world)
      ensures old(pendingOps) != [] ==>
        && pendingOps == old(pendingOps)[1..] && applied == old(applied) + [old(pendingOps)[0]]
        && world == Apply(old(world), old(pendingOps)[0])
    {
      if pendingOps == [] {
        return;
      }
      PopConserves(State());
      var op := pendingOps[0];
      pendingOps := pendingOps[1..];
      ApplyOneMore(start, applied, op);
      world := Apply(world, op);
      applied := applied + [op];
    }

    /** Apply the pending operations of `path` in order, then drop them from the list. */
    method OnFileOp(path: string)
      requires Valid()
      modifies this
      ensures Valid() && start == old(start) && added == old(added) && State() == Drained(old(State()), path)
      ensures pendingOps == OffPath(old(pendingOps), path) && applied == old(applied) + OnPath(old(pendingOps), path)
      ensures world == ApplyAll(old(world), OnPath(old(pendingOps), path))
    {
      ApplyAllConcat(start, applied, OnPath(pendingOps, path));
      DrainConserves(State(), path);
      DrainEmptiesPath(State(), path, path);
      DrainPath(path);
    }

    method DrainPath(path: string)
      requires world == ApplyAll(start, applied)
      modifies this
      ensures start == old(start) && State() == Drained(old(State()), path)
      ensures world == ApplyAll(start, applied)
    {
      ghost var was := applied;
      for i := 0 to |pendingOps|
        invariant pendingOps == old(pendingOps) && added == old(added) && start == old(start)
        invariant applied == was + OnPath(pendingOps[..i], path)
        invariant world == ApplyAll(start, applied)
      {
        assert pendingOps[..i + 1][..i] == pendingOps[..i];
        if pendingOps[i].path == path {
          ghost var before := applied;
          world := Apply(world, pendingOps[i]);
          applied := applied + [pendingOps[i]];
          assert applied[..|before|] == before;
        }
      }
      assert pendingOps[..|pendingOps|] == pendingOps;
      RemovePath(path);
    }

    method RemovePath(path: string)
      modifies this`pendingOps
      ensures pendingOps == OffPath(old(pendingOps), path)
    {
      var kept: seq<WritebackOp> := [];
      for i := 0 to |pendingOps|
        invariant pendingOps == old(pendingOps)
        invariant kept == OffPath(pendingOps[..i], path)
      {
        assert pendingOps[..i + 1][..i] == pendingOps[..i];
        if pendingOps[i].path != path {
          kept := kept + [pendingOps[i]];
        }
      }
      assert pendingOps[..|pendingOps|] == pendingOps;
      pendingOps := kept;
    }

    /** The destructor's drain. */
    method Destroy()
      requires Valid()
      modifies this
      ensures start == old(start) && applied == old(applied) + old(pendingOps)
      ensures applied == Destroyed(old(State())).applied
      ensures world == ApplyAll(start, applied) == ApplyAll(old(world), old(pendingOps))
      ensures multiset(applied) == multiset(added) && added == old(added)
    {
      ghost var was := applied;
      ApplyAllConcat(start, applied, pendingOps);
      for i := 0 to |pendingOps|
        invariant pendingOps == old(pendingOps) && added == old(added) && start == old(start)
        invariant applied == was + pendingOps[..i]
        invariant world == ApplyAll(start, applied)
      {
        ghost var before := applied;
        world := Apply(world, pendingOps[i]);
        applied := applied + [pendingOps[i]];
        assert applied[..|before|] == before;
      }
      assert pendingOps[..|pendingOps|] == pendingOps;
    }
  }
}
