/** The modules that leave times or failures out model the same operations: they are projections of the
    cache protocol's. */
module Projections {
  import opened FileBytes
  import opened CacheIndex
  import opened Mount
  import C = Consistency
  import L = LocalReorder
  import Q = WritebackQueue

  /** Files without their modification times. */
  function Contents(files: C.Store): map<string, Bytes> {
    map path | path in files :: files[path].data
  }

  function WorldOf(s: C.Site): Q.World {
    Q.World(Contents(s.server), Contents(s.client.cache), s.client.index)
  }

  function LocalOf(c: C.Client): L.Local {
    L.Local(Contents(c.cache), c.index.fdToMeta)
  }

  lemma ContentsOfUpdate(files: C.Store, path: string, file: C.File)
    ensures Contents(files[path := file]) == Contents(files)[path := file.data]
  {
  }

  /** A writeback that is stored is the queue's writeback, and reports success. */
  lemma WritebackProjects(s: C.Site, path: string, fd: int, now: nat)
    ensures var (s', ok) := C.WritebackToServer(s, path, fd, now, C.Stored);
            ok && WorldOf(s') == Q.WritebackToServer(WorldOf(s), path, fd)
  {
    if C.IsDirty(s.client, fd) && s.client.index.fdToMeta[fd].path in s.client.cache {
      var file := C.File(s.client.cache[s.client.index.fdToMeta[fd].path].data, now);
      ContentsOfUpdate(s.server, RemoveMountPrefix(path), file);
    }
  }

  lemma ReleaseProjects(s: C.Site, path: string, fd: int, now: nat)
    ensures WorldOf(C.Release(s, path, fd, now, C.Stored).0) == Q.Release(WorldOf(s), path, fd)
  {
    WritebackProjects(s, path, fd, now);
  }

  /** A pending operation as the cache protocol carries it out. */
  function Carry(s: C.Site, op: Q.WritebackOp, now: nat): C.Site {
    match op.kind
    case CLOSE => C.Release(s, op.path, op.fd, now, C.Stored).0
    case FLUSH => C.WritebackToServer(s, op.path, op.fd, now, C.Stored).0
  }

  /** Operations applied one after another, each at its own time. */
  function CarryAll(s: C.Site, ops: seq<Q.WritebackOp>, times: seq<nat>): C.Site
    requires |times| == |ops|
  {
    if ops == [] then s
    else
      var n := |ops| - 1;
      Carry(CarryAll(s, ops[..n], times[..n]), ops[n], times[n])
  }

  lemma {:induction false} CarryAllProjects(s: C.Site, ops: seq<Q.WritebackOp>, times: seq<nat>)
    requires |times| == |ops|
    ensures WorldOf(CarryAll(s, ops, times)) == Q.ApplyAll(WorldOf(s), ops)
  {
    if ops != [] {
      var n := |ops| - 1;
      var before := CarryAll(s, ops[..n], times[..n]);
      CarryAllProjects(s, ops[..n], times[..n]);
      match ops[n].kind
      case CLOSE => ReleaseProjects(before, ops[n].path, ops[n].fd, times[n]);
      case FLUSH => WritebackProjects(before, ops[n].path, ops[n].fd, times[n]);
    }
  }

  /** Whatever the watchdog and the drains did, and whenever they did it, a destroyed queue leaves the
      cache protocol's server contents and descriptor table as first-in first-out writebacks would. */
  lemma DelayedWritebacksAreInvisible(s: C.Site, events: seq<Q.Event>, times: seq<nat>, fifo: seq<nat>)
    requires Agrees(s.client.index) && |times| == |Q.Destroyed(Q.Run(events)).applied|
             && |fifo| == |Q.Run(events).added|
    requires forall op :: op in Q.Run(events).added ==> Q.Targeted(WorldOf(s), op)
    ensures var late := CarryAll(s, Q.Destroyed(Q.Run(events)).applied, times);
            var fair := CarryAll(s, Q.Run(events).added, fifo);
            Contents(late.server) == Contents(fair.server) && late.client.index == fair.client.index
  {
    CarryAllProjects(s, Q.Destroyed(Q.Run(events)).applied, times);
    CarryAllProjects(s, Q.Run(events).added, fifo);
    Q.ReorderingIsInvisible(WorldOf(s), events);
  }

  /** A write that succeeds is the replay's write; the server is not involved. */
  lemma WriteProjects(s: C.Site, op: L.WriteOp, now: nat)
    ensures var s' := C.Write(s, op.fd, op.buf, op.offset, now, true);
            LocalOf(s'.client) == L.WowWrite(LocalOf(s.client), op) && s'.server == s.server
  {
    if op.fd in s.client.index.fdToMeta {
      var path := s.client.index.fdToMeta[op.fd].path;
      if path in s.client.cache {
        var data := Pwrite(s.client.cache[path].data, op.buf, op.offset);
        ContentsOfUpdate(s.client.cache, path, C.File(data, now));
        assert op.buf == [] ==> Contents(s.client.cache)[path := data] == Contents(s.client.cache);
      }
    }
  }

  /** The queued writes as the cache protocol carries them out. */
  function WriteAll(s: C.Site, ops: seq<L.WriteOp>, times: seq<nat>): C.Site
    requires |times| == |ops|
  {
    if ops == [] then s
    else
      var n := |ops| - 1;
      C.Write(WriteAll(s, ops[..n], times[..n]), ops[n].fd, ops[n].buf, ops[n].offset, times[n], true)
  }

  /** The replay at a flush is those writes, one after another, on the client's cache and marks. */
  lemma {:induction false} ReplayProjects(s: C.Site, ops: seq<L.WriteOp>, times: seq<nat>)
    requires |times| == |ops|
    ensures var s' := WriteAll(s, ops, times);
            LocalOf(s'.client) == L.Replay(LocalOf(s.client), ops) && s'.server == s.server
  {
    if ops != [] {
      var n := |ops| - 1;
      ReplayProjects(s, ops[..n], times[..n]);
      WriteProjects(WriteAll(s, ops[..n], times[..n]), ops[n], times[n]);
    }
  }
}
