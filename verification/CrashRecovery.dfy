/** Crash atomicity of server writebacks: temp file, fsync, rename, and the cleanup at restart. */
module CrashRecovery {
  import opened FileBytes
  import opened Streaming

  /** A path below the served directory, as its components. */
  type Path = seq<string>

  predicate EndsWith(s: string, suffix: string) {
    |s| >= |suffix| && s[|s| - |suffix|..] == suffix
  }

  predicate IsTmp(p: Path) {
    p != [] && EndsWith(p[|p| - 1], TMP_SUFFIX)
  }

  function TmpOf(p: Path): (t: Path)
    requires p != []
    ensures IsTmp(t)
  {
    p[..|p| - 1] + [p[|p| - 1] + TMP_SUFFIX]
  }

  lemma TmpNamesDiffer(p: Path, q: Path)
    requires p != [] && q != []
    ensures TmpOf(p) == TmpOf(q) <==> p == q
  {
    if TmpOf(p) == TmpOf(q) {
      var t := TmpOf(p);
      assert p[..|p| - 1] == t[..|t| - 1] == q[..|q| - 1];
      var name := t[|t| - 1];
      assert p[|p| - 1] == name[..|name| - |TMP_SUFFIX|] == q[|q| - 1];
      assert p == p[..|p| - 1] + [p[|p| - 1]] && q == q[..|q| - 1] + [q[|q| - 1]];
    }
  }

  // ---------------------------------------------------------------------------------------------
  // The disk and its system calls
  // ---------------------------------------------------------------------------------------------

  /** File contents as running processes see them; a crash may garble or lose the unsynced files. */
  datatype Disk = Disk(files: map<Path, Bytes>, unsynced: set<Path>)

  function OpenTrunc(d: Disk, p: Path): Disk {
    Disk(d.files[p := []], d.unsynced + {p})
  }

  function PwriteFile(d: Disk, p: Path, buf: Bytes, offset: nat): Disk
    requires p in d.files
  {
    Disk(d.files[p := Pwrite(d.files[p], buf, offset)], d.unsynced + {p})
  }

  function Fsync(d: Disk, p: Path): Disk {
    d.(unsynced := d.unsynced - {p})
  }

  /** An atomic rename; whether the data is on disk moves with the name. */
  function Rename(d: Disk, from: Path, to: Path): Disk
    requires from in d.files && from != to
  {
    Disk((d.files - {from})[to := d.files[from]],
         d.unsynced - {from, to} + if from in d.unsynced then {to} else {})
  }

  /** What may be found after a crash. */
  ghost predicate Survives(d: Disk, after: map<Path, Bytes>) {
    forall p :: p !in d.unsynced ==>
      (p in after <==> p in d.files) && (p in after ==> after[p] == d.files[p])
  }

  // ---------------------------------------------------------------------------------------------
  // Concurrent writebacks, one system call at a time
  // ---------------------------------------------------------------------------------------------

  /** A writeback in progress: where it goes, what it was sent, how many system calls it has made, and
      whether the fsync was among those that succeeded (nothing looks at its result). */
  datatype Job = Job(path: Path, requests: seq<WriteRequest>, calls: nat, synced: bool)

  datatype State = State(disk: Disk, jobs: map<int, Job>)

  datatype Step =
    Start(id: int, path: Path, requests: seq<WriteRequest>) | Call(id: int, fsyncOk: bool) | Abort(id: int)

  /** open, one pwrite per request, fsync, close, rename. An fsync that fails leaves the file unsynced. */
  function NextCall(d: Disk, j: Job, fsyncOk: bool): Disk
    requires j.path != [] && j.calls <= |j.requests| + 3
    requires j.calls > 0 ==> TmpOf(j.path) in d.files
    requires !IsTmp(j.path)
  {
    var tmp := TmpOf(j.path);
    var n := |j.requests|;
    if j.calls == 0 then OpenTrunc(d, tmp)
    else if j.calls <= n then PwriteFile(d, tmp, j.requests[j.calls - 1].buf, j.requests[j.calls - 1].offset)
    else if j.calls == n + 1 then if fsyncOk then Fsync(d, tmp) else d
    else if j.calls == n + 2 then d
    else Rename(d, tmp, j.path)
  }

  ghost predicate Idle(s: State, path: Path) {
    forall id :: id in s.jobs ==> s.jobs[id].path != path
  }

  /** One writeback per path at a time, of a non-empty stream, to a name not ending in the suffix. */
  ghost predicate Enabled(s: State, step: Step) {
    match step
    case Start(id, path, requests) => id !in s.jobs && path != [] && !IsTmp(path) && requests != [] && Idle(s, path)
    case Call(id, _) => id in s.jobs
    case Abort(id) => id in s.jobs
  }

  function Called(j: Job, fsyncOk: bool): Job {
    j.(calls := j.calls + 1, synced := if j.calls == |j.requests| + 1 then fsyncOk else j.synced)
  }

  function Next(s: State, step: Step): State
    requires Valid(s) && Enabled(s, step)
  {
    match step
    case Start(id, path, requests) => s.(jobs := s.jobs[id := Job(path, requests, 0, false)])
    case Abort(id) => s.(jobs := s.jobs - {id})
    case Call(id, fsyncOk) =>
      var j := s.jobs[id];
      assert JobOk(s.disk, j);
      State(NextCall(s.disk, j, fsyncOk),
            if j.calls == |j.requests| + 3 then s.jobs - {id} else s.jobs[id := Called(j, fsyncOk)])
  }

  ghost predicate JobOk(d: Disk, j: Job) {
    var tmp := if j.path == [] then [] else TmpOf(j.path);
    var n := |j.requests|;
    && j.path != [] && !IsTmp(j.path) && j.requests != [] && j.calls <= n + 3
    && (j.calls > 0 ==> tmp in d.files && d.files[tmp] == Received(j.requests[..Min(j.calls - 1, n)]))
    && (j.calls > n + 1 ==> (j.synced <==> tmp !in d.unsynced))
    && (1 <= j.calls <= n + 1 ==> tmp in d.unsynced)
  }

  ghost predicate Valid(s: State) {
    && (forall id :: id in s.jobs ==> JobOk(s.disk, s.jobs[id]))
    && (forall a, b :: a in s.jobs && b in s.jobs && a != b ==> s.jobs[a].path != s.jobs[b].path)
  }

  lemma CallKeepsJob(s: State, id: int, other: int, fsyncOk: bool)
    requires Valid(s) && id in s.jobs && other in s.jobs && other != id
    ensures JobOk(NextCall(s.disk, s.jobs[id], fsyncOk), s.jobs[other])
  {
    var j, k := s.jobs[id], s.jobs[other];
    assert JobOk(s.disk, j) && JobOk(s.disk, k);
    TmpNamesDiffer(j.path, k.path);
  }

  lemma CallKeepsOwnJob(d: Disk, j: Job, fsyncOk: bool)
    requires JobOk(d, j) && j.calls < |j.requests| + 3
    ensures JobOk(NextCall(d, j, fsyncOk), Called(j, fsyncOk))
  {
    var n := |j.requests|;
    if 0 < j.calls <= n {
      assert j.requests[..j.calls][..j.calls - 1] == j.requests[..j.calls - 1];
    }
  }

  lemma CallIsValid(s: State, id: int, fsyncOk: bool)
    requires Valid(s) && id in s.jobs
    ensures Valid(Next(s, Call(id, fsyncOk)))
  {
    var s' := Next(s, Call(id, fsyncOk));
    var j := s.jobs[id];
    assert JobOk(s.disk, j);
    forall other | other in s'.jobs ensures JobOk(s'.disk, s'.jobs[other]) {
      if other == id { CallKeepsOwnJob(s.disk, j, fsyncOk); } else { CallKeepsJob(s, id, other, fsyncOk); }
    }
  }

  lemma NextIsValid(s: State, step: Step)
    requires Valid(s) && Enabled(s, step)
    ensures Valid(Next(s, step))
  {
    var s' := Next(s, step);
    if step.Call? {
      CallIsValid(s, step.id, step.fsyncOk);
    } else {
      forall id | id in s'.jobs ensures JobOk(s'.disk, s'.jobs[id]) {
        if id in s.jobs { assert JobOk(s.disk, s.jobs[id]); }
      }
    }
  }

  // ---------------------------------------------------------------------------------------------
  // The specification: a writeback is one atomic store
  // ---------------------------------------------------------------------------------------------

  /** The files users see: everything but temporary names. */
  function UserFiles(files: map<Path, Bytes>): map<Path, Bytes> {
    map p | p in files && !IsTmp(p) :: files[p]
  }

  /** The step stores a whole buffer when it is the last call of its writeback; all others do nothing. */
  ghost function Stored(spec: map<Path, Bytes>, s: State, step: Step): map<Path, Bytes>
    requires Valid(s) && Enabled(s, step)
  {
    if step.Call? && s.jobs[step.id].calls == |s.jobs[step.id].requests| + 3
    then spec[s.jobs[step.id].path := Received(s.jobs[step.id].requests)]
    else spec
  }

  /** Every system call refines the atomic store. */
  lemma StepRefines(s: State, step: Step)
    requires Valid(s) && Enabled(s, step)
    ensures UserFiles(Next(s, step).disk.files) == Stored(UserFiles(s.disk.files), s, step)
  {
    if step.Call? {
      var j := s.jobs[step.id];
      assert JobOk(s.disk, j);
      var n := |j.requests|;
      assert j.requests[..n] == j.requests;
    }
  }

  ghost predicate ValidRun(s: State, steps: seq<Step>) {
    steps == [] || (ValidRun(s, steps[..|steps| - 1]) &&
                    Valid(After(s, steps[..|steps| - 1]))
                      && Enabled(After(s, steps[..|steps| - 1]), steps[|steps| - 1]))
  }

  ghost function After(s: State, steps: seq<Step>): State {
    if steps == [] then s
    else
      var before := After(s, steps[..|steps| - 1]);
      if Valid(before) && Enabled(before, steps[|steps| - 1]) then Next(before, steps[|steps| - 1]) else before
  }

  /** The atomic specification run over the same steps. */
  ghost function SpecAfter(s: State, steps: seq<Step>): map<Path, Bytes> {
    if steps == [] then UserFiles(s.disk.files)
    else
      var before := After(s, steps[..|steps| - 1]);
      var spec := SpecAfter(s, steps[..|steps| - 1]);
      if Valid(before) && Enabled(before, steps[|steps| - 1]) then Stored(spec, before, steps[|steps| - 1]) else spec
  }

  lemma {:induction false} RunRefines(s: State, steps: seq<Step>)
    requires Valid(s) && ValidRun(s, steps)
    ensures Valid(After(s, steps)) && UserFiles(After(s, steps).disk.files) == SpecAfter(s, steps)
  {
    if steps != [] {
      RunRefines(s, steps[..|steps| - 1]);
      NextIsValid(After(s, steps[..|steps| - 1]), steps[|steps| - 1]);
      StepRefines(After(s, steps[..|steps| - 1]), steps[|steps| - 1]);
    }
  }

  lemma {:induction false} PrefixRun(s: State, steps: seq<Step>, k: nat)
    requires ValidRun(s, steps) && k <= |steps|
    ensures ValidRun(s, steps[..k])
  {
    if k < |steps| {
      PrefixRun(s, steps[..|steps| - 1], k);
      assert steps[..|steps| - 1][..k] == steps[..k];
    } else {
      assert steps[..k] == steps;
    }
  }

  /** What a restart leaves of the surviving files: the cleanup deletes every temporary name. */
  function Recovered(after: map<Path, Bytes>): map<Path, Bytes> {
    UserFiles(after)
  }

  /** The user files a crash may harm. */
  function UserUnsynced(d: Disk): set<Path> {
    set p | p in d.unsynced && !IsTmp(p)
  }

  /** A step exposes a path when it renames a file onto it whose fsync failed, and covers it again when it
      renames a synced one. */
  ghost function ExposedBy(exposed: set<Path>, s: State, step: Step): set<Path> {
    if step.Call? && step.id in s.jobs && s.jobs[step.id].calls == |s.jobs[step.id].requests| + 3 then
      var j := s.jobs[step.id];
      if j.synced then exposed - {j.path} else exposed + {j.path}
    else exposed
  }

  /** The paths whose present version was renamed into place after a failed fsync. */
  ghost function Exposed(s: State, steps: seq<Step>): set<Path> {
    if steps == [] then UserUnsynced(s.disk)
    else
      var n := |steps| - 1;
      ExposedBy(Exposed(s, steps[..n]), After(s, steps[..n]), steps[n])
  }

  lemma StepExposes(s: State, step: Step)
    requires Valid(s) && Enabled(s, step)
    ensures UserUnsynced(Next(s, step).disk) == ExposedBy(UserUnsynced(s.disk), s, step)
  {
    if step.Call? { assert JobOk(s.disk, s.jobs[step.id]); }
  }

  lemma {:induction false} RunExposes(s: State, steps: seq<Step>)
    requires Valid(s) && ValidRun(s, steps)
    ensures UserUnsynced(After(s, steps).disk) == Exposed(s, steps)
  {
    if steps != [] {
      var n := |steps| - 1;
      RunExposes(s, steps[..n]);
      RunRefines(s, steps[..n]);
      StepExposes(After(s, steps[..n]), steps[n]);
    }
  }

  /** Every survivor of a crash recovers to the user files exactly when none of those is unsynced. */
  lemma SurvivorsRecoverIff(d: Disk)
    ensures UserUnsynced(d) == {} <==>
            forall after :: Survives(d, after) ==> Recovered(after) == UserFiles(d.files)
  {
    if UserUnsynced(d) == {} {
      assert forall p :: p in d.unsynced ==> p in UserUnsynced(d) || IsTmp(p);
    } else {
      var p :| p in UserUnsynced(d);
      var after := if p in d.files then d.files - {p} else d.files[p := []];
      assert Survives(d, after);
      assert p in Recovered(after) <==> p !in UserFiles(d.files);
    }
  }

  /** Crash atomicity. A crash may undo the latest directory updates (the disk is that of some earlier
      moment `k`) and may garble everything not yet synced. Whatever survives, after the restart the files
      are exactly those of the atomic specification at moment `k` (every path holds its old contents or
      one writeback's full contents, other files are untouched), if and only if the present version of no
      path was renamed into place after a failed fsync. */
  lemma CrashAtomicity(s: State, steps: seq<Step>, k: nat)
    requires Valid(s) && ValidRun(s, steps) && k <= |steps|
    ensures Exposed(s, steps[..k]) == {} <==>
            forall after :: Survives(After(s, steps[..k]).disk, after) ==> Recovered(after) == SpecAfter(s, steps[..k])
  {
    PrefixRun(s, steps, k);
    RunRefines(s, steps[..k]);
    RunExposes(s, steps[..k]);
    SurvivorsRecoverIff(After(s, steps[..k]).disk);
  }

  ghost predicate FsyncsSucceed(steps: seq<Step>) {
    forall i :: 0 <= i < |steps| && steps[i].Call? ==> steps[i].fsyncOk
  }

  ghost predicate AllSynced(s: State) {
    forall id :: id in s.jobs && s.jobs[id].calls > |s.jobs[id].requests| + 1 ==> s.jobs[id].synced
  }

  /** When no fsync fails, nothing is ever exposed. */
  lemma {:induction false} NothingExposed(s: State, steps: seq<Step>)
    requires Valid(s) && ValidRun(s, steps) && FsyncsSucceed(steps) && AllSynced(s) && UserUnsynced(s.disk) == {}
    ensures AllSynced(After(s, steps)) && Exposed(s, steps) == {}
  {
    if steps != [] {
      var n := |steps| - 1;
      NothingExposed(s, steps[..n]);
      RunRefines(s, steps[..n]);
      var before := After(s, steps[..n]);
      if steps[n].Call? { assert JobOk(before.disk, before.jobs[steps[n].id]); }
    }
  }

  /** After `i` steps some writeback to `p` was in progress whose full contents are `data`. */
  ghost predicate WholeBuffer(s: State, steps: seq<Step>, i: nat, id: int, p: Path, data: Bytes) {
    i < |steps| && var jobs := After(s, steps[..i]).jobs;
    id in jobs && jobs[id].path == p && Received(jobs[id].requests) == data
  }

  /** What is being written back, and what its fsync will answer. */
  datatype Task = Task(id: int, path: Path, requests: seq<WriteRequest>, fsyncOk: bool)

  /** The state after some calls of a writeback, if nothing else moves. */
  ghost predicate Underway(s: State, s': State, t: Task, calls: nat) {
    && t.path != [] && t.id in s'.jobs && s'.jobs == s.jobs[t.id := s'.jobs[t.id]]
    && s'.jobs[t.id].path == t.path && s'.jobs[t.id].requests == t.requests && s'.jobs[t.id].calls == calls
    && s'.disk.files - {TmpOf(t.path)} == s.disk.files - {TmpOf(t.path)}
  }

  lemma CallProceeds(s: State, s': State, t: Task, calls: nat)
    requires Valid(s') && Underway(s, s', t, calls) && calls < |t.requests| + 3
    ensures Underway(s, Next(s', Call(t.id, t.fsyncOk)), t, calls + 1)
  {
    assert JobOk(s'.disk, s'.jobs[t.id]);
  }

  lemma LastCallStores(s: State, s': State, t: Task)
    requires Valid(s') && Underway(s, s', t, |t.requests| + 3) && t.id !in s.jobs && !IsTmp(t.path)
    ensures var end := Next(s', Call(t.id, t.fsyncOk));
            end.jobs == s.jobs && end.disk.files == (s.disk.files - {TmpOf(t.path)})[t.path := Received(t.requests)]
  {
    assert JobOk(s'.disk, s'.jobs[t.id]);
    assert t.requests[..|t.requests|] == t.requests;
    assert s'.jobs - {t.id} == s.jobs;
  }

  /** The steps of one writeback from its start on. */
  function WritebackSteps(t: Task, calls: nat): seq<Step> {
    if calls == 0 then [Start(t.id, t.path, t.requests)]
    else WritebackSteps(t, calls - 1) + [Call(t.id, t.fsyncOk)]
  }

  lemma RunOneMore(s: State, steps: seq<Step>, step: Step)
    requires Valid(s) && ValidRun(s, steps) && Enabled(After(s, steps), step)
    ensures Valid(After(s, steps)) && ValidRun(s, steps + [step])
    ensures After(s, steps + [step]) == Next(After(s, steps), step)
  {
    RunRefines(s, steps);
    assert (steps + [step])[..|steps|] == steps;
  }

  /** The writeback has come so far in these steps. */
  ghost predicate Reached(s: State, steps: seq<Step>, t: Task, calls: nat) {
    ValidRun(s, steps) && Valid(After(s, steps)) && Underway(s, After(s, steps), t, calls)
  }

  lemma WritebackStarts(s: State, t: Task)
    requires Valid(s) && Enabled(s, Start(t.id, t.path, t.requests))
    ensures Reached(s, [Start(t.id, t.path, t.requests)], t, 0)
  {
    var start := Start(t.id, t.path, t.requests);
    RunOneMore(s, [], start);
    assert [] + [start] == [start];
    NextIsValid(s, start);
  }

  lemma WritebackCalls(s: State, steps: seq<Step>, t: Task, calls: nat)
    requires Valid(s) && Reached(s, steps, t, calls) && calls < |t.requests| + 3
    ensures Reached(s, steps + [Call(t.id, t.fsyncOk)], t, calls + 1)
  {
    RunOneMore(s, steps, Call(t.id, t.fsyncOk));
    CallProceeds(s, After(s, steps), t, calls);
    NextIsValid(After(s, steps), Call(t.id, t.fsyncOk));
  }

  lemma {:induction false} WritebackProceeds(s: State, t: Task, calls: nat)
    requires Valid(s) && Enabled(s, Start(t.id, t.path, t.requests)) && calls <= |t.requests| + 3
    ensures Reached(s, WritebackSteps(t, calls), t, calls)
  {
    if calls == 0 {
      WritebackStarts(s, t);
    } else {
      WritebackProceeds(s, t, calls - 1);
      WritebackCalls(s, WritebackSteps(t, calls - 1), t, calls - 1);
    }
  }

  /** A writeback that is let run finishes: after its open, its pwrites, fsync, close and rename its file is
      the received buffer, its temporary name and its job are gone, and every other file is as it was. */
  lemma WritebackFinishes(s: State, t: Task)
    requires Valid(s) && Enabled(s, Start(t.id, t.path, t.requests))
    ensures var steps := WritebackSteps(t, |t.requests| + 4);
            && ValidRun(s, steps) && After(s, steps).jobs == s.jobs
            && After(s, steps).disk.files == (s.disk.files - {TmpOf(t.path)})[t.path := Received(t.requests)]
  {
    var before := WritebackSteps(t, |t.requests| + 3);
    WritebackProceeds(s, t, |t.requests| + 3);
    RunOneMore(s, before, Call(t.id, t.fsyncOk));
    LastCallStores(s, After(s, before), t);
  }

  /** Every version the specification ever holds is the initial one or a whole received buffer. */
  lemma {:induction false} SpecHoldsWholeBuffers(s: State, steps: seq<Step>, p: Path)
    requires p in SpecAfter(s, steps)
    ensures (p in UserFiles(s.disk.files) && SpecAfter(s, steps)[p] == UserFiles(s.disk.files)[p])
            || exists i: nat, id :: WholeBuffer(s, steps, i, id, p, SpecAfter(s, steps)[p])
  {
    if steps != [] {
      var n := |steps| - 1;
      var before := After(s, steps[..n]);
      if p in SpecAfter(s, steps[..n]) && SpecAfter(s, steps)[p] == SpecAfter(s, steps[..n])[p] {
        SpecHoldsWholeBuffers(s, steps[..n], p);
        if i: nat, id :| WholeBuffer(s, steps[..n], i, id, p, SpecAfter(s, steps)[p]) {
          assert steps[..n][..i] == steps[..i];
          assert WholeBuffer(s, steps, i, id, p, SpecAfter(s, steps)[p]);
        }
      } else {
        assert WholeBuffer(s, steps, n, steps[n].id, p, SpecAfter(s, steps)[p]);
      }
    }
  }

  /** The fsync matters: renaming an unsynced temporary file lets a crash leave any bytes at all under
      the final name. */
  lemma RenameWithoutFsyncIsUnsafe(d: Disk, path: Path, garbage: Bytes)
    requires path != [] && !IsTmp(path) && TmpOf(path) in d.files && TmpOf(path) in d.unsynced
    ensures var after := Rename(d, TmpOf(path), path).files[path := garbage];
            Survives(Rename(d, TmpOf(path), path), after) && Recovered(after)[path] == garbage
  {
  }

  // ---------------------------------------------------------------------------------------------
  // The cleanup
  // ---------------------------------------------------------------------------------------------

  datatype Entry = Entry(name: string, isDir: bool)

  /** What a cleanup looks for, and the files whose removal fails. */
  datatype Sweep = Sweep(extension: string, stuck: set<Path>)

  predicate Removes(sweep: Sweep, p: Path) {
    p != [] && EndsWith(p[|p| - 1], sweep.extension) && p !in sweep.stuck
  }

  /** `p` lies strictly below `dir`, under one of the children `names`, and is one to remove. */
  predicate Doomed(p: Path, dir: Path, names: set<string>, sweep: Sweep) {
    dir < p && p[|dir|] in names && Removes(sweep, p)
  }

  /** `files` without what is doomed. */
  function Keep(files: map<Path, Bytes>, dir: Path, names: set<string>, sweep: Sweep): map<Path, Bytes> {
    map p | p in files && !Doomed(p, dir, names, sweep) :: files[p]
  }

  /** `files` without everything below `dir` that is to remove. */
  function Cleaned(files: map<Path, Bytes>, dir: Path, sweep: Sweep): map<Path, Bytes> {
    map p | p in files && !(dir < p && Removes(sweep, p)) :: files[p]
  }

  lemma BelowChild(p: Path, dir: Path, name: string)
    ensures dir + [name] <= p <==> dir < p && p[|dir|] == name
  {
    if dir < p && p[|dir|] == name {
      assert p[..|dir| + 1] == dir + [name];
    }
  }

  lemma PrefixOrEqual(q: Path, p: Path)
    ensures q <= p <==> q < p || q == p
  {
    if q <= p && |q| == |p| {
      assert p == p[..|q|];
    }
  }

  lemma CleanChildDir(files: map<Path, Bytes>, dir: Path, names: set<string>, sweep: Sweep, name: string)
    requires dir + [name] !in files
    ensures Cleaned(Keep(files, dir, names, sweep), dir + [name], sweep) == Keep(files, dir, names + {name}, sweep)
  {
    forall p | p in files ensures Doomed(p, dir, names + {name}, sweep) <==>
      Doomed(p, dir, names, sweep) || (dir + [name] < p && Removes(sweep, p))
    {
      BelowChild(p, dir, name);
      PrefixOrEqual(dir + [name], p);
    }
  }

  lemma CleanChildFile(files: map<Path, Bytes>, dir: Path, names: set<string>, sweep: Sweep, name: string)
    requires forall p :: p in files ==> !(dir + [name] < p)
    ensures Keep(files, dir, names + {name}, sweep) ==
            Keep(files, dir, names, sweep) - if Removes(sweep, dir + [name]) then {dir + [name]} else {}
  {
    forall p | p in files ensures Doomed(p, dir, names + {name}, sweep) <==>
      Doomed(p, dir, names, sweep) || (p == dir + [name] && Removes(sweep, p))
    {
      BelowChild(p, dir, name);
    }
  }

  predicate Listed(entries: seq<Entry>, name: string) {
    exists i :: 0 <= i < |entries| && entries[i].name == name
  }

  ghost predicate Placed(p: Path, dirs: set<Path>) {
    p != [] ==> p[..|p| - 1] in dirs && p[|p| - 1] != "." && p[|p| - 1] != ".."
  }

  /** A directory tree: everything but the root sits in a directory, and a name is a file or a
      directory, not both. */
  ghost predicate WellFormed(files: map<Path, Bytes>, dirs: set<Path>) {
    && [] in dirs && files.Keys !! dirs
    && (forall p {:trigger Placed(p, dirs)} :: p in files || p in dirs ==> Placed(p, dirs))
  }

  function Children(files: map<Path, Bytes>, dirs: set<Path>, dir: Path): set<string> {
    set p | p in files.Keys + dirs && |p| == |dir| + 1 && dir < p :: p[|dir|]
  }

  lemma ChildPath(files: map<Path, Bytes>, dirs: set<Path>, dir: Path, name: string)
    ensures name in Children(files, dirs, dir) <==> dir + [name] in files || dir + [name] in dirs
  {
    if dir + [name] in files || dir + [name] in dirs {
      assert dir < dir + [name] && (dir + [name])[|dir|] == name;
    }
    if name in Children(files, dirs, dir) {
      var p :| p in files.Keys + dirs && |p| == |dir| + 1 && dir < p && p[|dir|] == name;
      assert p == dir + [name];
    }
  }

  lemma {:induction false} AncestorsAreDirs(files: map<Path, Bytes>, dirs: set<Path>, p: Path, n: nat)
    requires WellFormed(files, dirs) && (p in files || p in dirs) && n < |p|
    ensures p[..n] in dirs
    decreases |p|
  {
    assert Placed(p, dirs);
    if n < |p| - 1 {
      AncestorsAreDirs(files, dirs, p[..|p| - 1], n);
      assert p[..|p| - 1][..n] == p[..n];
    }
  }

  /** A file below `dir` lies under one of the children of `dir`. */
  lemma UnderAChild(files: map<Path, Bytes>, dirs: set<Path>, p: Path, dir: Path)
    requires WellFormed(files, dirs) && p in files && dir < p
    ensures p[|dir|] in Children(files, dirs, dir) && p[|dir|] != "." && p[|dir|] != ".."
  {
    var child := dir + [p[|dir|]];
    assert p[..|dir| + 1] == child;
    if |dir| + 1 < |p| { AncestorsAreDirs(files, dirs, p, |dir| + 1); }
    ChildPath(files, dirs, dir, p[|dir|]);
    assert Placed(child, dirs) && child[|child| - 1] == p[|dir|];
  }

  lemma NothingBelowAFile(files: map<Path, Bytes>, dirs: set<Path>, f: Path, p: Path)
    requires WellFormed(files, dirs) && f in files && p in files
    ensures !(f < p)
  {
    if f < p {
      AncestorsAreDirs(files, dirs, p, |f|);
      TakePrefix(f, p);
    }
  }

  lemma TakePrefix(f: Path, p: Path)
    requires f <= p
    ensures p[..|f|] == f
  {
  }

  lemma CleanDot(files: map<Path, Bytes>, dirs: set<Path>, dir: Path, names: set<string>, sweep: Sweep, name: string)
    requires WellFormed(files, dirs) && (name == "." || name == "..")
    ensures Keep(files, dir, names + {name}, sweep) == Keep(files, dir, names, sweep)
  {
    forall p | p in files && dir < p ensures p[|dir|] != name {
      UnderAChild(files, dirs, p, dir);
    }
  }

  lemma AllChildrenCleaned(files: map<Path, Bytes>, dirs: set<Path>, dir: Path, names: set<string>, sweep: Sweep)
    requires WellFormed(files, dirs) && Children(files, dirs, dir) <= names
    ensures Keep(files, dir, names, sweep) == Cleaned(files, dir, sweep)
  {
    forall p | p in files && dir < p ensures p[|dir|] in names {
      UnderAChild(files, dirs, p, dir);
    }
  }

  ghost predicate EntryOk(files: map<Path, Bytes>, dirs: set<Path>, dir: Path, e: Entry) {
    if e.name == "." || e.name == ".." then e.isDir
    else dir + [e.name] in if e.isDir then dirs else files.Keys
  }

  lemma KeepIsWellFormed(files: map<Path, Bytes>, dirs: set<Path>, dir: Path, names: set<string>, sweep: Sweep)
    requires WellFormed(files, dirs)
    ensures WellFormed(Keep(files, dir, names, sweep), dirs)
  {
    forall p | p in Keep(files, dir, names, sweep) || p in dirs ensures Placed(p, dirs) {
      assert p in files || p in dirs;
    }
  }

  /** What handling one entry leaves. */
  function Handled(files: map<Path, Bytes>, dir: Path, e: Entry, sweep: Sweep): map<Path, Bytes> {
    var child := dir + [e.name];
    if e.isDir then if e.name != "." && e.name != ".." then Cleaned(files, child, sweep) else files
    else if Removes(sweep, child) then files - {child} else files
  }

  lemma HandledKeeps(files: map<Path, Bytes>, dirs: set<Path>, dir: Path, names: set<string>, sweep: Sweep, e: Entry)
    requires WellFormed(files, dirs) && EntryOk(files, dirs, dir, e)
    ensures Handled(Keep(files, dir, names, sweep), dir, e, sweep) == Keep(files, dir, names + {e.name}, sweep)
  {
    if !e.isDir {
      forall p | p in files ensures !(dir + [e.name] < p) {
        NothingBelowAFile(files, dirs, dir + [e.name], p);
      }
      CleanChildFile(files, dir, names, sweep, e.name);
    } else if e.name == "." || e.name == ".." {
      CleanDot(files, dirs, dir, names, sweep, e.name);
    } else {
      CleanChildDir(files, dir, names, sweep, e.name);
    }
  }

  ghost function DirsBelow(dirs: set<Path>, dir: Path): set<Path> {
    set d | d in dirs && dir < d
  }

  lemma FewerDirsBelow(dirs: set<Path>, dir: Path, name: string)
    requires dir + [name] in dirs
    ensures DirsBelow(dirs, dir + [name]) < DirsBelow(dirs, dir)
  {
    var child := dir + [name];
    assert dir < child;
    assert child in DirsBelow(dirs, dir) && child !in DirsBelow(dirs, child);
    forall d | d in DirsBelow(dirs, child) ensures d in DirsBelow(dirs, dir) {
      assert d[..|dir|] == dir;
    }
  }

  class Tree {
    var files: map<Path, Bytes>
    var dirs: set<Path>
    const stuck: set<Path>

    ghost predicate Valid()
      reads this
    {
      WellFormed(files, dirs)
    }

    constructor (files: map<Path, Bytes>, dirs: set<Path>, stuck: set<Path>)
      ensures this.files == files && this.dirs == dirs && this.stuck == stuck
    {
      this.files, this.dirs, this.stuck := files, dirs, stuck;
    }

    /** Every child, in no particular order, after the two names every directory has. */
    method ReadDir(dir: Path) returns (entries: seq<Entry>)
      ensures Listed(entries, ".") && Listed(entries, "..")
      ensures forall name :: name in Children(files, dirs, dir) ==> Listed(entries, name)
      ensures forall i :: 0 <= i < |entries| ==> EntryOk(files, dirs, dir, entries[i])
    {
      entries := [Entry(".", true), Entry("..", true)];
      assert entries[0].name == "." && entries[1].name == "..";
      var rest := Children(files, dirs, dir);
      while rest != {}
        invariant rest <= Children(files, dirs, dir) && Listed(entries, ".") && Listed(entries, "..")
        invariant forall name :: name in Children(files, dirs, dir) && name !in rest ==> Listed(entries, name)
        invariant forall i :: 0 <= i < |entries| ==> EntryOk(files, dirs, dir, entries[i])
        decreases rest
      {
        var name :| name in rest;
        ChildPath(files, dirs, dir, name);
        ghost var was := entries;
        entries := entries + [Entry(name, name == "." || name == ".." || dir + [name] in dirs)];
        assert entries[|was|].name == name;
        forall other | Listed(was, other) ensures Listed(entries, other) {
          var i :| 0 <= i < |was| && was[i].name == other;
          assert entries[i].name == other;
        }
        rest := rest - {name};
      }
    }

    /** Recursive deletion below `dir`: exactly the files that end with the extension go, except those
        whose removal fails; nothing else changes. */
    method CleanTmpFiles(dir: Path, extension: string)
      requires Valid()
      modifies this`files
      ensures Valid()
      ensures files == if dir in dirs then Cleaned(old(files), dir, Sweep(extension, stuck)) else old(files)
      decreases DirsBelow(dirs, dir), 1
    {
      if dir !in dirs {
        return;
      }
      var entries := ReadDir(dir);
      ghost var was, sweep := files, Sweep(extension, stuck);
      ghost var names: set<string> := {};
      for i := 0 to |entries|
        invariant files == Keep(was, dir, names, sweep)
        invariant forall k :: 0 <= k < i ==> entries[k].name in names
      {
        KeepIsWellFormed(was, dirs, dir, names, sweep);
        HandledKeeps(was, dirs, dir, names, sweep, entries[i]);
        CleanEntry(dir, entries[i], extension);
        names := names + {entries[i].name};
      }
      forall name | name in Children(was, dirs, dir) ensures name in names {
        assert Listed(entries, name);
      }
      KeepIsWellFormed(was, dirs, dir, names, sweep);
      AllChildrenCleaned(was, dirs, dir, names, sweep);
    }

    method CleanEntry(dir: Path, e: Entry, extension: string)
      requires Valid() && (e.isDir && e.name != "." && e.name != ".." ==> dir + [e.name] in dirs)
      modifies this`files
      ensures files == Handled(old(files), dir, e, Sweep(extension, stuck))
      decreases DirsBelow(dirs, dir), 0
    {
      if e.isDir {
        if e.name != "." && e.name != ".." {
          FewerDirsBelow(dirs, dir, e.name);
          CleanTmpFiles(dir + [e.name], extension);
        }
      } else if EndsWith(e.name, extension) {
        var fullPath := dir + [e.name];
        if fullPath !in stuck {
          files := files - {fullPath};
        }
      }
    }

    /** What the server does before it serves: clean its whole tree. The result is what crash
        atomicity assumes of a restart exactly when every temporary file can be removed. */
    method Restart()
      requires Valid()
      modifies this`files
      ensures Valid() && UserFiles(files) == UserFiles(old(files))
      ensures files == Recovered(old(files)) <==> forall p :: p in old(files) && IsTmp(p) ==> p !in stuck
    {
      ghost var was := files;
      CleanTmpFiles([], TMP_SUFFIX);
      assert UserFiles(files) == UserFiles(was);
      if files == Recovered(was) {
        assert forall p :: p in was && IsTmp(p) ==> p !in files;
      }
    }
  }

  /** The server crashes after any moment of any run and starts again on what survived. The user files
      are those of the atomic specification, and nothing else is left exactly when every temporary file
      could be removed. */
  method RestartAfterCrash(tree: Tree, ghost s: State, ghost steps: seq<Step>)
    requires Valid(s) && ValidRun(s, steps) && Exposed(s, steps) == {}
    requires tree.Valid() && Survives(After(s, steps).disk, tree.files)
    modifies tree`files
    ensures tree.Valid() && UserFiles(tree.files) == SpecAfter(s, steps)
    ensures tree.files == SpecAfter(s, steps) <==> forall p :: p in old(tree.files) && IsTmp(p) ==> p !in tree.stuck
  {
    assert steps[..|steps|] == steps;
    CrashAtomicity(s, steps, |steps|);
    tree.Restart();
  }
}
