/** Locally delayed writes: the shuffle of the pending queue and its replay at flush. */
module LocalReorder {
  import opened FileBytes
  import opened CacheIndex

  // ---------------------------------------------------------------------------------------------
  // The shuffle
  // ---------------------------------------------------------------------------------------------

  function Swap<T>(s: seq<T>, i: nat, j: nat): (r: seq<T>)
    requires i < |s| && j < |s|
    ensures |r| == |s|
  {
    s[i := s[j]][j := s[i]]
  }

  lemma SwapTail<T>(s: seq<T>, i: nat, j: nat)
    requires j <= i < |s|
    ensures Swap(s, i, j)[i..] == [s[j]] + s[i + 1..]
  {
  }

  lemma SwapHead<T>(s: seq<T>, i: nat, j: nat)
    requires j <= i < |s|
    ensures multiset(Swap(s, i, j)[..i]) + multiset{s[j]} == multiset(s[..i + 1])
  {
    assert s[..i + 1] == s[..i] + [s[i]];
    if j < i {
      assert Swap(s, i, j)[..i] == s[..i][j := s[i]];
    } else {
      assert Swap(s, i, j)[..i] == s[..i];
    }
  }

  lemma SwapPermutes<T>(s: seq<T>, i: nat, j: nat)
    requires j <= i < |s|
    ensures multiset(Swap(s, i, j)) == multiset(s)
  {
    var t := Swap(s, i, j);
    SwapHead(s, i, j);
    SwapTail(s, i, j);
    assert t == t[..i] + ([s[j]] + s[i + 1..]);
    assert s == s[..i + 1] + s[i + 1..];
  }

  /** One random draw per position: at position `i` the draw is an index between 0 and `i`. Position
      0 is never drawn, so its entry is fixed at 0. */
  predicate Draws(cs: seq<nat>, n: nat) {
    |cs| == n && forall i :: 0 <= i < n ==> cs[i] <= i
  }

  /** The swaps still to do when the loop counter is `i`. */
  function ShuffleFrom<T>(s: seq<T>, cs: seq<nat>, i: nat): seq<T>
    requires Draws(cs, |s|) && i < |s|
    decreases i
  {
    if i == 0 then s else ShuffleFrom(Swap(s, i, cs[i]), cs, i - 1)
  }

  function Shuffled<T>(s: seq<T>, cs: seq<nat>): seq<T>
    requires Draws(cs, |s|)
  {
    if s == [] then s else ShuffleFrom(s, cs, |s| - 1)
  }

  lemma {:induction false} ShuffleFromPermutes<T>(s: seq<T>, cs: seq<nat>, i: nat)
    requires Draws(cs, |s|) && i < |s|
    ensures |ShuffleFrom(s, cs, i)| == |s|
    ensures multiset(ShuffleFrom(s, cs, i)) == multiset(s)
    ensures ShuffleFrom(s, cs, i)[i + 1..] == s[i + 1..]
    decreases i
  {
    if i > 0 {
      var t := Swap(s, i, cs[i]);
      SwapPermutes(s, i, cs[i]);
      SwapTail(s, i, cs[i]);
      ShuffleFromPermutes(t, cs, i - 1);
      var r := ShuffleFrom(s, cs, i);
      assert r[i + 1..] == r[i..][1..] && t[i + 1..] == t[i..][1..];
    }
  }

  /** Whatever is drawn, the queue is only rearranged. */
  lemma ShufflePermutes<T>(s: seq<T>, cs: seq<nat>)
    requires Draws(cs, |s|)
    ensures |Shuffled(s, cs)| == |s| && multiset(Shuffled(s, cs)) == multiset(s)
  {
    if s != [] { ShuffleFromPermutes(s, cs, |s| - 1); }
  }

  lemma IndexOf<T>(s: seq<T>, x: T) returns (j: nat)
    requires x in multiset(s)
    ensures j < |s| && s[j] == x
  {
    assert x in s;
    j :| 0 <= j < |s| && s[j] == x;
  }

  lemma CancelOne<T>(a: multiset<T>, b: multiset<T>, x: T)
    requires a + multiset{x} == b + multiset{x}
    ensures a == b
  {
    assert a == (a + multiset{x}) - multiset{x};
    assert b == (b + multiset{x}) - multiset{x};
  }

  lemma {:induction false} ReachFrom<T>(s: seq<T>, target: seq<T>, i: nat, cs0: seq<nat>) returns (cs: seq<nat>)
    requires i < |s| == |target| && Draws(cs0, |s|) && cs0[0] == 0
    requires multiset(s[..i + 1]) == multiset(target[..i + 1]) && s[i + 1..] == target[i + 1..]
    ensures Draws(cs, |s|) && cs[0] == 0 && cs[i + 1..] == cs0[i + 1..]
    ensures ShuffleFrom(s, cs, i) == target
    decreases i
  {
    assert target[..i + 1] == target[..i] + [target[i]];
    if i == 0 {
      cs := cs0;
      assert s[..1] == [s[0]] && target[..1] == [target[0]];
      assert multiset{s[0]} == multiset{target[0]};
      assert s[0] in multiset{target[0]};
      assert s == s[..1] + s[1..] && target == target[..1] + target[1..];
    } else {
      assert target[i] in multiset(target[..i + 1]);
      var j := IndexOf(s[..i + 1], target[i]);
      var t := Swap(s, i, j);
      SwapHead(s, i, j);
      SwapTail(s, i, j);
      CancelOne(multiset(t[..i]), multiset(target[..i]), target[i]);
      assert target[i..] == [target[i]] + target[i + 1..];
      cs := ReachFrom(t, target, i - 1, cs0[i := j]);
      assert cs[i..] == cs0[i := j][i..];
      assert cs[i] == cs[i..][0] == j;
      assert cs[i + 1..] == cs[i..][1..] == cs0[i + 1..];
    }
  }

  /** The shuffle reaches exactly the rearrangements of the queue. */
  lemma ShuffleReachesEveryPermutation<T>(s: seq<T>, target: seq<T>)
    ensures multiset(target) == multiset(s) <==>
            exists cs :: Draws(cs, |s|) && (s != [] ==> cs[0] == 0) && Shuffled(s, cs) == target
  {
    if multiset(target) == multiset(s) {
      assert |multiset(target)| == |target| && |multiset(s)| == |s|;
      if s == [] {
        assert Draws([], 0) && Shuffled(s, []) == target;
      } else {
        var n := |s| - 1;
        assert s[..n + 1] == s && target[..n + 1] == target;
        var cs := ReachFrom(s, target, n, seq(|s|, _ => 0));
        assert Shuffled(s, cs) == target;
      }
    }
    forall cs | Draws(cs, |s|) && Shuffled(s, cs) == target ensures multiset(target) == multiset(s) {
      ShufflePermutes(s, cs);
    }
  }

  ghost predicate Distinct<T>(s: seq<T>) {
    forall i, j :: 0 <= i < j < |s| ==> s[i] != s[j]
  }

  lemma SwapDistinct<T>(s: seq<T>, i: nat, j: nat)
    requires i < |s| && j < |s| && Distinct(s)
    ensures Distinct(Swap(s, i, j))
  {
    var t := Swap(s, i, j);
    forall a, b | 0 <= a < b < |t| ensures t[a] != t[b] {
      var a' := if a == i then j else if a == j then i else a;
      var b' := if b == i then j else if b == j then i else b;
      assert t[a] == s[a'] && t[b] == s[b'] && a' != b';
    }
  }

  lemma DrawDetermined<T>(s: seq<T>, cs: seq<nat>, ds: seq<nat>, i: nat)
    requires 0 < i < |s| && Distinct(s) && Draws(cs, |s|) && Draws(ds, |s|)
    requires ShuffleFrom(s, cs, i) == ShuffleFrom(s, ds, i)
    ensures cs[i] == ds[i]
  {
    SettledAt(s, cs, i);
    SettledAt(s, ds, i);
    assert s[cs[i]] == s[ds[i]];
  }

  /** The element drawn for position `i` stays there. */
  lemma SettledAt<T>(s: seq<T>, cs: seq<nat>, i: nat)
    requires 0 < i < |s| && Draws(cs, |s|)
    ensures |ShuffleFrom(s, cs, i)| == |s| && ShuffleFrom(s, cs, i)[i] == s[cs[i]]
  {
    var t := Swap(s, i, cs[i]);
    ShuffleFromPermutes(t, cs, i - 1);
    SameTail(ShuffleFrom(t, cs, i - 1), t, i);
  }

  lemma SameTail<T>(s: seq<T>, t: seq<T>, i: nat)
    requires |s| == |t| && i < |s| && s[i..] == t[i..]
    ensures s[i] == t[i]
  {
    assert s[i] == s[i..][0] && t[i] == t[i..][0];
  }

  lemma {:induction false} DrawsDetermined<T>(s: seq<T>, cs: seq<nat>, ds: seq<nat>, i: nat)
    requires i < |s| && Distinct(s) && Draws(cs, |s|) && Draws(ds, |s|)
    requires ShuffleFrom(s, cs, i) == ShuffleFrom(s, ds, i)
    ensures forall k :: 0 < k <= i ==> cs[k] == ds[k]
    decreases i
  {
    if i > 0 {
      DrawDetermined(s, cs, ds, i);
      SwapDistinct(s, i, cs[i]);
      DrawsDetermined(Swap(s, i, cs[i]), cs, ds, i - 1);
    }
  }

  /** With distinct elements every rearrangement comes from exactly one sequence of draws, so uniform
      draws give a uniform shuffle. */
  lemma ShuffleIsUnbiased<T>(s: seq<T>, cs: seq<nat>, ds: seq<nat>)
    requires s != [] && Distinct(s) && Draws(cs, |s|) && Draws(ds, |s|) && cs[0] == ds[0] == 0
    ensures Shuffled(s, cs) == Shuffled(s, ds) <==> cs == ds
  {
    if Shuffled(s, cs) == Shuffled(s, ds) {
      DrawsDetermined(s, cs, ds, |s| - 1);
    }
  }

  /** The in-place loop over the vector; `cs` are the numbers the generator draws. */
  method FisherYatesShuffle<T>(vec: array<T>, cs: seq<nat>)
    requires Draws(cs, vec.Length)
    modifies vec
    ensures vec[..] == Shuffled(old(vec[..]), cs)
    ensures multiset(vec[..]) == multiset(old(vec[..]))
  {
    ShufflePermutes(vec[..], cs);
    var i := vec.Length - 1;
    while i > 0
      invariant vec.Length == 0 ==> i == -1
      invariant vec.Length > 0 ==> 0 <= i < vec.Length
      invariant vec.Length > 0 ==> ShuffleFrom(vec[..], cs, i) == Shuffled(old(vec[..]), cs)
    {
      var j := cs[i];
      ghost var was := vec[..];
      vec[i], vec[j] := vec[j], vec[i];
      assert vec[..] == Swap(was, i, j);
      i := i - 1;
    }
  }

  // ---------------------------------------------------------------------------------------------
  // Replaying the queue
  // ---------------------------------------------------------------------------------------------

  datatype WriteOp = WriteOp(fd: int, buf: Bytes, offset: nat)

  /** What a replay touches: the cached files and the descriptor table. */
  datatype Local = Local(disk: map<string, Bytes>, fds: map<int, FileMeta>)

  /** Whether `op` writes the cached file `path`. */
  ghost predicate Hits(st: Local, op: WriteOp, path: string) {
    op.fd in st.fds && st.fds[op.fd].path == path
  }

  /** One write through its descriptor. A descriptor that is no longer registered is a failed pwrite
      and an ignored dirty mark. */
  function WowWrite(st: Local, op: WriteOp): Local {
    if op.fd !in st.fds then st else
    var path := st.fds[op.fd].path;
    Local(if path in st.disk then st.disk[path := Pwrite(st.disk[path], op.buf, op.offset)] else st.disk,
          st.fds[op.fd := st.fds[op.fd].(isDirty := true)])
  }

  function Replay(st: Local, ops: seq<WriteOp>): Local {
    if ops == [] then st else WowWrite(Replay(st, ops[..|ops| - 1]), ops[|ops| - 1])
  }

  ghost predicate SameFiles(st: Local, st': Local) {
    && st.disk.Keys == st'.disk.Keys && st.fds.Keys == st'.fds.Keys
    && forall fd :: fd in st.fds ==> st.fds[fd].path == st'.fds[fd].path
  }

  lemma {:induction false} ReplayKeepsFiles(st: Local, ops: seq<WriteOp>)
    ensures SameFiles(st, Replay(st, ops))
  {
    if ops != [] { ReplayKeepsFiles(st, ops[..|ops| - 1]); }
  }

  /** The byte the last write covering offset `k` of `path` puts there, if any does. */
  ghost function LastByte(st: Local, ops: seq<WriteOp>, path: string, k: nat): seq<byte> {
    if ops == [] then [] else
    var op := ops[|ops| - 1];
    if Hits(st, op, path) && op.offset <= k < op.offset + |op.buf| then [op.buf[k - op.offset]]
    else LastByte(st, ops[..|ops| - 1], path, k)
  }

  /** Where the writes to `path` end, starting from a file of length `n`. */
  ghost function EndOf(st: Local, ops: seq<WriteOp>, path: string, n: nat): nat {
    if ops == [] then n else
    var op := ops[|ops| - 1];
    var before := EndOf(st, ops[..|ops| - 1], path, n);
    if Hits(st, op, path) && op.buf != [] then Max(before, op.offset + |op.buf|) else before
  }

  ghost function Content(st: Local, ops: seq<WriteOp>, path: string, file: Bytes): Bytes {
    seq(EndOf(st, ops, path, |file|), k requires 0 <= k =>
      var b := LastByte(st, ops, path, k);
      if b != [] then b[0] else if k < |file| then file[k] else 0)
  }

  lemma WriteContent(st: Local, before: Local, ops: seq<WriteOp>, path: string)
    requires ops != [] && SameFiles(st, before) && path in st.disk
    requires before.disk[path] == Content(st, ops[..|ops| - 1], path, st.disk[path])
    ensures WowWrite(before, ops[|ops| - 1]).disk[path] == Content(st, ops, path, st.disk[path])
  {
    var n := |ops| - 1;
    assert Hits(st, ops[n], path) == Hits(before, ops[n], path);
    EndBound(st, ops[..n], path, |st.disk[path]|);
  }

  /** Every byte some write covers lies before the end the writes give the file. */
  lemma {:induction false} EndBound(st: Local, ops: seq<WriteOp>, path: string, n: nat)
    ensures EndOf(st, ops, path, n) >= n
    ensures forall k :: 0 <= k && LastByte(st, ops, path, k) != [] ==> k < EndOf(st, ops, path, n)
  {
    if ops != [] { EndBound(st, ops[..|ops| - 1], path, n); }
  }

  /** What a replay leaves: in every file each byte is the last recorded write that covers it, else
      the old byte, else a zero-filled hole; the file ends at the furthest write. A descriptor is
      dirty afterwards exactly when it was before or has a write in the queue. */
  lemma {:induction false} ReplayContent(st: Local, ops: seq<WriteOp>)
    ensures SameFiles(st, Replay(st, ops))
    ensures forall p :: p in st.disk ==> Replay(st, ops).disk[p] == Content(st, ops, p, st.disk[p])
    ensures forall fd :: fd in st.fds ==>
      (Replay(st, ops).fds[fd].isDirty <==> st.fds[fd].isDirty || exists i :: 0 <= i < |ops| && ops[i].fd == fd)
  {
    ReplayKeepsFiles(st, ops);
    if ops == [] {
      forall p | p in st.disk ensures st.disk[p] == Content(st, ops, p, st.disk[p]) {}
    } else {
      var n := |ops| - 1;
      ReplayContent(st, ops[..n]);
      ReplayKeepsFiles(st, ops[..n]);
      var before := Replay(st, ops[..n]);
      forall p | p in st.disk ensures Replay(st, ops).disk[p] == Content(st, ops, p, st.disk[p]) {
        WriteContent(st, before, ops, p);
      }
      forall fd | fd in st.fds
        ensures Replay(st, ops).fds[fd].isDirty <==>
                st.fds[fd].isDirty || exists i :: 0 <= i < |ops| && ops[i].fd == fd
      {
        assert forall i :: 0 <= i < n ==> ops[..n][i] == ops[i];
        if i :| 0 <= i < |ops| && ops[i].fd == fd && i < n {
          assert ops[..n][i].fd == fd;
        }
      }
    }
  }

  /** Replaying the same queue again changes nothing, even when its writes overlap: the queue is
      not cleared by a flush, so every later flush replays it. */
  lemma ReplayTwice(st: Local, ops: seq<WriteOp>)
    ensures Replay(Replay(st, ops), ops) == Replay(st, ops)
  {
    var once := Replay(st, ops);
    var twice := Replay(once, ops);
    ReplayContent(st, ops);
    ReplayContent(once, ops);
    forall p | p in st.disk ensures twice.disk[p] == once.disk[p] {
      SameTargets(st, once, ops, p);
      EndTwice(st, ops, p, |st.disk[p]|);
      EndBound(st, ops, p, |st.disk[p]|);
    }
    assert twice.disk == once.disk;
    forall fd | fd in st.fds ensures twice.fds[fd] == once.fds[fd] {}
    assert twice.fds == once.fds;
  }

  lemma {:induction false} SameTargets(st: Local, st': Local, ops: seq<WriteOp>, path: string)
    requires SameFiles(st, st')
    ensures forall n: nat :: EndOf(st, ops, path, n) == EndOf(st', ops, path, n)
    ensures forall k: nat :: LastByte(st, ops, path, k) == LastByte(st', ops, path, k)
  {
    if ops != [] {
      SameTargets(st, st', ops[..|ops| - 1], path);
      assert Hits(st, ops[|ops| - 1], path) == Hits(st', ops[|ops| - 1], path);
    }
  }

  lemma {:induction false} EndTwice(st: Local, ops: seq<WriteOp>, path: string, n: nat)
    ensures EndOf(st, ops, path, EndOf(st, ops, path, n)) == EndOf(st, ops, path, n)
    ensures forall m: nat :: n <= m ==> EndOf(st, ops, path, m) == Max(m, EndOf(st, ops, path, n))
  {
    if ops != [] { EndTwice(st, ops[..|ops| - 1], path, n); }
  }

  // ---------------------------------------------------------------------------------------------
  // Replaying in another order
  // ---------------------------------------------------------------------------------------------

  ghost predicate Covers(op: WriteOp, k: int) {
    op.offset <= k < op.offset + |op.buf|
  }

  /** Wherever both writes cover a byte they agree on it; disjoint ranges are the plain case. */
  ghost predicate Agree(a: WriteOp, b: WriteOp) {
    forall k :: Covers(a, k) && Covers(b, k) ==> a.buf[k - a.offset] == b.buf[k - b.offset]
  }

  ghost predicate SameTarget(st: Local, a: WriteOp, b: WriteOp) {
    a.fd in st.fds && b.fd in st.fds && st.fds[a.fd].path == st.fds[b.fd].path
  }

  /** The two writes do not go to one cached file, or agree there. */
  ghost predicate Independent(st: Local, a: WriteOp, b: WriteOp) {
    SameTarget(st, a, b) && st.fds[a.fd].path in st.disk ==> Agree(a, b)
  }

  lemma PwritesAgree(file: Bytes, a: WriteOp, b: WriteOp)
    requires Agree(a, b)
    ensures Pwrite(Pwrite(file, a.buf, a.offset), b.buf, b.offset)
            == Pwrite(Pwrite(file, b.buf, b.offset), a.buf, a.offset)
  {
    var ab := Pwrite(Pwrite(file, a.buf, a.offset), b.buf, b.offset);
    var ba := Pwrite(Pwrite(file, b.buf, b.offset), a.buf, a.offset);
    assert |ab| == |ba|;
    forall k | 0 <= k < |ab| ensures ab[k] == ba[k] {
      assert Covers(a, k) && Covers(b, k) ==> a.buf[k - a.offset] == b.buf[k - b.offset];
    }
  }

  /** Two writes to one file may be exchanged exactly when they agree where they overlap. */
  lemma ExchangeIff(st: Local, a: WriteOp, b: WriteOp)
    requires SameTarget(st, a, b) && st.fds[a.fd].path in st.disk
    ensures WowWrite(WowWrite(st, a), b) == WowWrite(WowWrite(st, b), a) <==> Agree(a, b)
  {
    var path := st.fds[a.fd].path;
    var file := st.disk[path];
    var ab := Pwrite(Pwrite(file, a.buf, a.offset), b.buf, b.offset);
    var ba := Pwrite(Pwrite(file, b.buf, b.offset), a.buf, a.offset);
    if Agree(a, b) {
      PwritesAgree(file, a, b);
      assert WowWrite(WowWrite(st, a), b).fds == WowWrite(WowWrite(st, b), a).fds;
      assert WowWrite(WowWrite(st, a), b).disk == st.disk[path := ab];
      assert WowWrite(WowWrite(st, b), a).disk == st.disk[path := ba];
    } else {
      var k :| Covers(a, k) && Covers(b, k) && a.buf[k - a.offset] != b.buf[k - b.offset];
      assert ab[k] != ba[k];
      assert WowWrite(WowWrite(st, a), b).disk[path] == ab && WowWrite(WowWrite(st, b), a).disk[path] == ba;
    }
  }

  lemma Exchange(st: Local, a: WriteOp, b: WriteOp)
    requires Independent(st, a, b)
    ensures WowWrite(WowWrite(st, a), b) == WowWrite(WowWrite(st, b), a)
  {
    var ab, ba := WowWrite(WowWrite(st, a), b), WowWrite(WowWrite(st, b), a);
    if SameTarget(st, a, b) && st.fds[a.fd].path in st.disk {
      ExchangeIff(st, a, b);
    } else {
      assert ab.disk == ba.disk && ab.fds == ba.fds;
    }
  }

  lemma {:induction false} MoveToEnd(st: Local, front: seq<WriteOp>, op: WriteOp, back: seq<WriteOp>)
    requires forall i :: 0 <= i < |back| ==> Independent(st, op, back[i])
    ensures Replay(st, front + [op] + back) == Replay(st, front + back + [op])
  {
    if back == [] {
      assert front + [op] + back == front + back + [op];
    } else {
      var n := |back| - 1;
      var last := back[n];
      var left, right := front + [op] + back, front + back + [op];
      assert left[..|left| - 1] == front + [op] + back[..n];
      assert right[..|right| - 1] == front + back;
      assert (front + back)[..|front| + n] == front + back[..n];
      assert (front + back[..n] + [op])[..|front| + n] == front + back[..n];
      MoveToEnd(st, front, op, back[..n]);
      var mid := Replay(st, front + back[..n]);
      ReplayKeepsFiles(st, front + back[..n]);
      Exchange(mid, op, last);
    }
  }

  ghost predicate PairwiseIndependent(st: Local, ops: seq<WriteOp>) {
    forall i, j :: 0 <= i < |ops| && 0 <= j < |ops| && i != j ==> Independent(st, ops[i], ops[j])
  }

  /** When the queued writes agree wherever two of them overlap in one file (pairwise disjoint ranges
      in particular), every order of the queue leaves the same files and the same dirty marks. */
  lemma {:induction false} AnyOrderReplaysTheSame(st: Local, ops: seq<WriteOp>, order: seq<WriteOp>)
    requires PairwiseIndependent(st, ops) && multiset(order) == multiset(ops)
    ensures Replay(st, order) == Replay(st, ops)
    decreases |order|
  {
    if order == [] {
      assert |multiset(ops)| == 0;
    } else {
      var n := |order| - 1;
      var last := order[n];
      var i := LastIsThere(ops, order);
      var rest := ops[..i] + ops[i + 1..];
      assert ops == ops[..i] + [last] + ops[i + 1..];
      MoveToEnd(st, ops[..i], last, ops[i + 1..]);
      assert (rest + [last])[..|rest|] == rest;
      AnyOrderReplaysTheSame(st, rest, order[..n]);
    }
  }

  /** The last of some rearranged operations, and what is left of both lists without it. */
  lemma LastIsThere(ops: seq<WriteOp>, order: seq<WriteOp>) returns (i: nat)
    requires order != [] && multiset(order) == multiset(ops)
    ensures i < |ops| && ops[i] == order[|order| - 1]
    ensures multiset(order[..|order| - 1]) == multiset(ops[..i] + ops[i + 1..])
  {
    var n := |order| - 1;
    var last := order[n];
    assert order == order[..n] + [last];
    assert last in multiset(order);
    i := IndexOf(ops, last);
    assert ops == ops[..i] + [last] + ops[i + 1..];
    CancelOne(multiset(order[..n]), multiset(ops[..i] + ops[i + 1..]), last);
  }

  /** Shuffling such a queue before the flush is invisible. */
  lemma ShuffledReplay(st: Local, ops: seq<WriteOp>, cs: seq<nat>)
    requires PairwiseIndependent(st, ops) && Draws(cs, |ops|)
    ensures Replay(st, Shuffled(ops, cs)) == Replay(st, ops)
  {
    ShufflePermutes(ops, cs);
    AnyOrderReplaysTheSame(st, ops, Shuffled(ops, cs));
  }

  /** All but one of some operations, then that one. */
  function Last<T>(s: seq<T>, i: nat): seq<T>
    requires i < |s|
  {
    s[..i] + s[i + 1..] + [s[i]]
  }

  lemma LastPermutes<T>(s: seq<T>, i: nat) returns (cs: seq<nat>)
    requires i < |s|
    ensures Draws(cs, |s|) && Shuffled(s, cs) == Last(s, i)
  {
    assert s == s[..i] + [s[i]] + s[i + 1..];
    assert multiset(Last(s, i)) == multiset(s);
    ShuffleReachesEveryPermutation(s, Last(s, i));
    cs :| Draws(cs, |s|) && (s != [] ==> cs[0] == 0) && Shuffled(s, cs) == Last(s, i);
  }

  /** The write that comes last decides the bytes it covers. */
  lemma LastWriteWins(st: Local, ops: seq<WriteOp>, op: WriteOp, k: nat)
    requires ops != [] && ops[|ops| - 1] == op && op.fd in st.fds && st.fds[op.fd].path in st.disk && Covers(op, k)
    ensures var file := Replay(st, ops).disk; var path := st.fds[op.fd].path;
            path in file && k < |file[path]| && file[path][k] == op.buf[k - op.offset]
  {
    var path := st.fds[op.fd].path;
    ReplayContent(st, ops);
    EndBound(st, ops, path, |st.disk[path]|);
    assert LastByte(st, ops, path, k) == [op.buf[k - op.offset]];
  }

  /** Two writes that disagree somewhere: two draws of the shuffle that do not leave the same file. */
  lemma DisagreementShows(st: Local, ops: seq<WriteOp>, i: nat, j: nat) returns (cs: seq<nat>, ds: seq<nat>)
    requires i < |ops| && j < |ops| && !Independent(st, ops[i], ops[j])
    ensures Draws(cs, |ops|) && Draws(ds, |ops|)
    ensures Replay(st, Shuffled(ops, cs)) != Replay(st, Shuffled(ops, ds))
  {
    var a, b := ops[i], ops[j];
    var k :| Covers(a, k) && Covers(b, k) && a.buf[k - a.offset] != b.buf[k - b.offset];
    cs := LastPermutes(ops, i);
    ds := LastPermutes(ops, j);
    LastWriteWins(st, Last(ops, i), a, k);
    LastWriteWins(st, Last(ops, j), b, k);
  }

  /** The shuffle before a flush is invisible exactly when the queued writes agree wherever two of
      them overlap in one cached file. */
  lemma ShuffleInvisibleIff(st: Local, ops: seq<WriteOp>)
    ensures PairwiseIndependent(st, ops) <==>
            forall cs :: Draws(cs, |ops|) ==> Replay(st, Shuffled(ops, cs)) == Replay(st, ops)
  {
    if PairwiseIndependent(st, ops) {
      forall cs | Draws(cs, |ops|) ensures Replay(st, Shuffled(ops, cs)) == Replay(st, ops) {
        ShuffledReplay(st, ops, cs);
      }
    } else {
      var i, j :| 0 <= i < |ops| && 0 <= j < |ops| && i != j && !Independent(st, ops[i], ops[j]);
      var cs, ds := DisagreementShows(st, ops, i, j);
    }
  }

  lemma SameIndependence(st: Local, st': Local, ops: seq<WriteOp>)
    requires SameFiles(st, st')
    ensures PairwiseIndependent(st, ops) <==> PairwiseIndependent(st', ops)
  {
    assert forall a, b :: Independent(st, a, b) <==> Independent(st', a, b);
  }

  /** The queue is not cleared by a flush: shuffling it again before the next one leaves the settled
      files alone exactly under the same condition. */
  lemma ReshuffleInvisibleIff(st: Local, ops: seq<WriteOp>)
    ensures PairwiseIndependent(st, ops) <==>
            forall cs :: Draws(cs, |ops|) ==> Replay(Replay(st, ops), Shuffled(ops, cs)) == Replay(st, ops)
  {
    var once := Replay(st, ops);
    ReplayKeepsFiles(st, ops);
    SameIndependence(st, once, ops);
    ReplayTwice(st, ops);
    ShuffleInvisibleIff(once, ops);
  }

  /** The smallest instance: two one-byte writes, and a draw with which the second flush changes a file
      the first flush had settled. */
  lemma OverlapIsVisible(st: Local, fd: int)
    requires fd in st.fds && st.fds[fd].path in st.disk
    ensures var ops := [WriteOp(fd, [1], 0), WriteOp(fd, [2], 0)];
            Draws([0, 0], 2) && Replay(Replay(st, ops), Shuffled(ops, [0, 0])) != Replay(st, ops)
  {
    var a, b := WriteOp(fd, [1], 0), WriteOp(fd, [2], 0);
    var ops := [a, b];
    assert Shuffled(ops, [0, 0]) == ShuffleFrom(Swap(ops, 1, 0), [0, 0], 0) == [b, a];
    ReplayPair(st, a, b);
    var once := Replay(st, ops);
    ReplayPair(once, b, a);
    var path := st.fds[fd].path;
    assert once.disk[path] == Pwrite(Pwrite(st.disk[path], [1], 0), [2], 0);
    assert once.disk[path][0] == 2;
    assert Replay(once, [b, a]).disk[path] == Pwrite(Pwrite(once.disk[path], [2], 0), [1], 0);
    assert Replay(once, [b, a]).disk[path][0] == 1;
  }

  lemma ReplayPair(st: Local, a: WriteOp, b: WriteOp)
    ensures Replay(st, [a, b]) == WowWrite(WowWrite(st, a), b)
  {
    assert [a, b][..1] == [a] && [a][..0] == [];
    assert Replay(st, [a]) == WowWrite(st, a);
  }

  /** The delayed-write singleton. */
  class WowLocalWriteReorder {
    var queue: seq<WriteOp>

    constructor ()
      ensures queue == []
    {
      queue := [];
    }

    method RecordWrite(fd: int, buf: Bytes, offset: nat)
      modifies this
      ensures queue == old(queue) + [WriteOp(fd, buf, offset)]
    {
      queue := queue + [WriteOp(fd, buf, offset)];
    }

    method Shuffle(cs: seq<nat>)
      requires Draws(cs, |queue|)
      modifies this
      ensures queue == Shuffled(old(queue), cs)
    {
      var vec := new WriteOp[|queue|](i requires 0 <= i < |queue| reads this => queue[i]);
      assert vec[..] == queue;
      FisherYatesShuffle(vec, cs);
      queue := vec[..];
    }

    /** The replay loop of a flush; the queue stays as it is. */
    method Flush(st: Local) returns (st': Local)
      ensures st' == Replay(st, queue)
    {
      st' := st;
      for i := 0 to |queue|
        invariant st' == Replay(st, queue[..i])
      {
        assert queue[..i + 1][..i] == queue[..i];
        st' := WowWrite(st', queue[i]);
      }
      assert queue[..|queue|] == queue;
    }
  }
}
