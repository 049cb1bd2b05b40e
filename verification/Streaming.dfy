/** Chunked streaming between client and server: writeback, download and directory listing. */
module Streaming {
  import opened Arithmetic
  import opened FileBytes

  const CHUNK: nat := 0x10_0000
  const TWO_31: int := 0x8000_0000
  const TWO_32: int := 0x1_0000_0000

  /** Conversion of an integer to a 32-bit signed field. */
  function Int32(n: int): (r: int)
    ensures -TWO_31 <= r < TWO_31 && (r - n) % TWO_32 == 0
  {
    (n + TWO_31) % TWO_32 - TWO_31
  }

  lemma Int32IsMinusOne(n: int)
    ensures Int32(n) == -1 <==> n % TWO_32 == TWO_32 - 1
  {
  }

  /** A natural number that stays non-negative in 32 bits does not grow, and shrinks from 2^31 on. */
  lemma Int32Shrinks(n: nat)
    ensures Int32(n) >= 0 ==> Int32(n) <= n && (Int32(n) == n <==> n < TWO_31)
  {
  }

  lemma Int32Fits(n: int)
    ensures Int32(n) == n <==> -TWO_31 <= n < TWO_31
  {
  }

  // ---------------------------------------------------------------------------------------------
  // Writeback: client to server
  // ---------------------------------------------------------------------------------------------

  datatype WriteRequest = WriteRequest(path: string, buf: Bytes, offset: nat)

  datatype Reply = Reply(ret: int, serverErrno: int)

  /** The requests of one writeback: consecutive pieces of the buffer at their own offsets, at least
      one of them even for an empty buffer, all full but the last. */
  ghost predicate Carries(requests: seq<WriteRequest>, path: string, buf: Bytes) {
    && requests != []
    && (forall i :: 0 <= i < |requests| ==> requests[i].path == path && |requests[i].buf| <= CHUNK)
    && (forall i :: 0 <= i < |requests| - 1 ==> |requests[i].buf| == CHUNK)
    && Covers(requests, buf)
  }

  ghost predicate Covers(requests: seq<WriteRequest>, buf: Bytes) {
    if requests == [] then buf == []
    else
      var last := requests[|requests| - 1];
      && last.offset + |last.buf| == |buf|
      && last.buf == buf[last.offset..]
      && Covers(requests[..|requests| - 1], buf[..last.offset])
  }

  /** The client's do-while loop. */
  method SendWriteback(path: string, buf: Bytes) returns (requests: seq<WriteRequest>)
    ensures Carries(requests, path, buf)
  {
    requests := [];
    var remainingData := |buf|;
    var pos := 0;
    var first := true;
    while first || remainingData > 0
      invariant 0 <= pos && 0 <= remainingData && pos + remainingData == |buf|
      invariant first ==> pos == 0 && requests == []
      invariant !first ==> requests != []
      invariant forall i :: 0 <= i < |requests| ==> requests[i].path == path && |requests[i].buf| <= CHUNK
      invariant forall i :: 0 <= i < |requests| - 1 ==> |requests[i].buf| == CHUNK
      invariant remainingData > 0 && requests != [] ==> |requests[|requests| - 1].buf| == CHUNK
      invariant Covers(requests, buf[..pos])
      decreases first, remainingData
    {
      first := false;
      var epochSize := if CHUNK < remainingData then CHUNK else remainingData;
      ghost var was := requests;
      requests := requests + [WriteRequest(path, buf[pos..pos + epochSize], pos)];
      assert requests[..|was|] == was;
      assert buf[..pos + epochSize][pos..] == buf[pos..pos + epochSize];
      assert buf[..pos + epochSize][..pos] == buf[..pos];
      pos := pos + epochSize;
      remainingData := remainingData - epochSize;
    }
    assert buf[..pos] == buf;
  }

  /** The temporary file after the requests: the first one opens it with O_TRUNC. */
  function Received(requests: seq<WriteRequest>): Bytes {
    if requests == [] then []
    else
      var last := requests[|requests| - 1];
      Pwrite(Received(requests[..|requests| - 1]), last.buf, last.offset)
  }

  function ByteCount(requests: seq<WriteRequest>): nat {
    if requests == [] then 0
    else ByteCount(requests[..|requests| - 1]) + |requests[|requests| - 1].buf|
  }

  lemma {:induction false} CoveringRequests(requests: seq<WriteRequest>, buf: Bytes)
    requires Covers(requests, buf)
    ensures Received(requests) == buf && ByteCount(requests) == |buf|
  {
    if requests != [] {
      var n := |requests| - 1;
      var last := requests[n];
      CoveringRequests(requests[..n], buf[..last.offset]);
      assert buf == buf[..last.offset] + buf[last.offset..];
    }
  }

  const TMP_SUFFIX := ".wow"

  /** What the system calls of one writeback answer. A pwrite that succeeds writes everything. */
  datatype WriteFaults = WriteFaults(openErrno: int, failedWrite: int, writeErrno: int, renameOk: bool)

  class Server {
    var files: map<string, Bytes>

    constructor (files: map<string, Bytes>)
      ensures this.files == files
    {
      this.files := files;
    }

    /** The server's side of a writeback. `openErrno` nonzero fails the open of the temporary file;
        request number `failedWrite` fails in pwrite. Either way the final name is not touched. A
        rename that fails leaves it untouched too, but is answered as a success. */
    method Writeback(requests: seq<WriteRequest>, f: WriteFaults) returns (reply: Reply)
      requires forall i, j :: 0 <= i < |requests| && 0 <= j < |requests| ==> requests[i].path == requests[j].path
      modifies this
      ensures requests == [] ==> files == old(files) && reply == Reply(0, 0)
      ensures requests != [] ==>
        var path := requests[0].path; var tmp := path + TMP_SUFFIX;
        if f.openErrno != 0 then files == old(files) && reply == Reply(-1, f.openErrno)
        else if 0 <= f.failedWrite < |requests| then
          files == old(files)[tmp := Received(requests[..f.failedWrite])] && reply == Reply(-1, f.writeErrno)
        else
          reply == Reply(Int32(ByteCount(requests)), 0) &&
          files == if f.renameOk then (old(files) - {tmp})[path := Received(requests)]
                   else old(files)[tmp := Received(requests)]
    {
      var numBytesWritten := 0;
      var outputOpen := false;
      var finalPath, tmpPath := "", "";
      var i := 0;
      while i < |requests|
        invariant 0 <= i <= |requests|
        invariant numBytesWritten == ByteCount(requests[..i])
        invariant outputOpen <==> i > 0
        invariant i == 0 ==> files == old(files)
        invariant i > 0 ==> f.openErrno == 0 && finalPath == requests[0].path && tmpPath == finalPath + TMP_SUFFIX
        invariant i > 0 ==> files == old(files)[tmpPath := Received(requests[..i])]
        invariant !(0 <= f.failedWrite < i)
      {
        var req := requests[i];
        finalPath := req.path;
        tmpPath := finalPath + TMP_SUFFIX;
        assert requests[..i + 1][..i] == requests[..i];
        if !outputOpen {
          if f.openErrno != 0 {
            return Reply(-1, f.openErrno);
          }
          files := files[tmpPath := []];
          outputOpen := true;
        }
        if i == f.failedWrite {
          return Reply(-1, f.writeErrno);
        }
        files := files[tmpPath := Pwrite(files[tmpPath], req.buf, req.offset)];
        numBytesWritten := numBytesWritten + |req.buf|;
        i := i + 1;
      }
      assert requests[..|requests|] == requests;
      if outputOpen && f.renameOk {
        // fsync, close, rename
        files := (files - {tmpPath})[finalPath := files[tmpPath]];
      }
      reply := Reply(Int32(numBytesWritten), 0);
    }
  }

  /** A writeback over a working stream. */
  method WritebackRoundTrip(server: Server, path: string, buf: Bytes) returns (reply: Reply)
    modifies server
    ensures server.files == (old(server.files) - {path + TMP_SUFFIX})[path := buf]
    ensures reply == Reply(Int32(|buf|), 0)
  {
    var requests := SendWriteback(path, buf);
    reply := server.Writeback(requests, WriteFaults(0, -1, 0, true));
    CoveringRequests(requests, buf);
  }

  /** The file that is renamed into place is the client's buffer byte for byte, however it was cut
      and whatever the temporary file held before; the reply equals its length exactly below 2^31. */
  lemma WritebackDelivers(requests: seq<WriteRequest>, path: string, buf: Bytes)
    requires Carries(requests, path, buf)
    ensures Received(requests) == buf
    ensures Int32(ByteCount(requests)) == |buf| <==> |buf| < TWO_31
  {
    CoveringRequests(requests, buf);
    Int32Fits(|buf|);
  }

  /** The client takes a reply of -1 as failure; a stored buffer gets that reply exactly when its
      length is one short of a multiple of 2^32. */
  lemma StoredButReportedFailed(requests: seq<WriteRequest>, path: string, buf: Bytes)
    requires Carries(requests, path, buf)
    ensures Int32(ByteCount(requests)) == -1 <==> |buf| % TWO_32 == TWO_32 - 1
  {
    CoveringRequests(requests, buf);
    Int32IsMinusOne(|buf|);
  }

  // ---------------------------------------------------------------------------------------------
  // Download: server to client
  // ---------------------------------------------------------------------------------------------

  datatype ReadResponse = ReadResponse(ret: int, serverErrno: int, buf: Bytes)

  function Payload(responses: seq<ReadResponse>): Bytes {
    if responses == [] then [] else Payload(responses[..|responses| - 1]) + responses[|responses| - 1].buf
  }

  /** A buffer cut into full chunks and a last one that is not longer, each announcing its length. */
  ghost predicate Streams(responses: seq<ReadResponse>, buf: Bytes) {
    && Payload(responses) == buf
    && (forall i :: 0 <= i < |responses| ==>
          responses[i].ret == |responses[i].buf| && responses[i].serverErrno == 0 && 0 < |responses[i].buf| <= CHUNK)
    && (forall i :: 0 <= i < |responses| - 1 ==> |responses[i].buf| == CHUNK)
  }

  /** The loop both ReadFile and ReadDir end with. The size it counts down is an int: a longer buffer
      is cut to what is left of its size in 32 bits, or leaves in one piece announced as negative. */
  method SendChunks(buf: Bytes) returns (responses: seq<ReadResponse>)
    ensures Int32(|buf|) >= 0 ==> Int32(|buf|) <= |buf| && Streams(responses, buf[..Int32(|buf|)])
    ensures Int32(|buf|) < 0 ==> responses == [ReadResponse(Int32(|buf|), 0, buf)]
  {
    responses := [];
    var remainingSize := Int32(|buf|);
    ghost var size := remainingSize;
    Int32Shrinks(|buf|);
    var pos := 0;
    while remainingSize != 0
      invariant pos + remainingSize == size && (size >= 0 ==> 0 <= pos && 0 <= remainingSize)
      invariant size >= 0 ==> Streams(responses, buf[..pos])
      invariant size >= 0 && remainingSize > 0 ==> forall i :: 0 <= i < |responses| ==> |responses[i].buf| == CHUNK
      invariant size < 0 && remainingSize != 0 ==> pos == 0 && responses == []
      invariant size < 0 && remainingSize == 0 ==> responses == [ReadResponse(size, 0, buf)]
      decreases if remainingSize < 0 then 1 else remainingSize
    {
      var epochSize := if remainingSize < CHUNK then remainingSize else CHUNK;
      // substr takes everything from pos on when its count is negative
      var piece := if epochSize < 0 then buf[pos..] else buf[pos..pos + epochSize];
      ghost var was := responses;
      responses := responses + [ReadResponse(epochSize, 0, piece)];
      assert responses[..|was|] == was;
      if size >= 0 {
        assert buf[..pos + epochSize] == buf[..pos] + piece;
      } else {
        assert buf[0..] == buf;
      }
      pos := pos + epochSize;
      remainingSize := remainingSize - epochSize;
    }
  }

  /** The requested size as the server's int: not negative, and with room for the 100 bytes it adds.
      Outside that range the buffer it allocates and the count it reads no longer fit each other. */
  predicate Allocates(size: int) {
    0 <= Int32(size) < TWO_31 - 100
  }

  /** The most one pread moves on Linux. */
  const PREAD_MAX := 0x7FFF_F000

  /** The server's ReadFile: what one pread gives of the requested number of bytes from the start of the
      file, or one error response. `moved` is the most that pread moves. */
  method ReadFile(files: map<string, Bytes>, path: string, size: int, moved: nat, errno: int)
    returns (responses: seq<ReadResponse>)
    requires Allocates(size)
    ensures path !in files ==> responses == [ReadResponse(-1, errno, [])]
    ensures path in files ==> Streams(responses, files[path][..Min(Min(Int32(size), moved), |files[path]|)])
  {
    if path !in files {
      return [ReadResponse(-1, errno, [])];
    }
    var bytesToRead := Int32(size);
    var count := if bytesToRead < moved then bytesToRead else moved;
    if |files[path]| < count {
      count := |files[path]|;
    }
    var buf := files[path][..count];
    Int32Fits(count);
    responses := SendChunks(buf);
    assert buf[..count] == buf;
  }

  /** What is appended for some responses: of each the bytes it announces. */
  function Appended(responses: seq<ReadResponse>): Bytes
    requires forall i :: 0 <= i < |responses| ==> 0 <= responses[i].ret <= |responses[i].buf|
  {
    if responses == [] then []
    else
      var last := responses[|responses| - 1];
      Appended(responses[..|responses| - 1]) + last.buf[..last.ret]
  }

  lemma {:induction false} AppendedWhole(responses: seq<ReadResponse>)
    requires forall i :: 0 <= i < |responses| ==> responses[i].ret == |responses[i].buf|
    ensures Appended(responses) == Payload(responses)
  {
    if responses != [] { AppendedWhole(responses[..|responses| - 1]); }
  }

  function TotalOf(responses: seq<ReadResponse>): int {
    if responses == [] then 0 else TotalOf(responses[..|responses| - 1]) + responses[|responses| - 1].ret
  }

  /** Response `n` is the first that reports an error. */
  predicate FailsAt(responses: seq<ReadResponse>, n: nat) {
    n < |responses| && responses[n].ret < 0 && forall i :: 0 <= i < n ==> responses[i].ret >= 0
  }

  /** The client's reassembly loop, shared by file and directory downloads: stop at the first negative
      return and report it, otherwise append the first `ret` bytes of each and report their number. */
  method Reassemble(responses: seq<ReadResponse>) returns (reply: Reply, buf: Bytes)
    requires forall i :: 0 <= i < |responses| ==> responses[i].ret <= |responses[i].buf|
    ensures forall n: nat :: FailsAt(responses, n) ==>
      buf == Appended(responses[..n]) && reply == Reply(responses[n].ret, responses[n].serverErrno)
    ensures (forall i :: 0 <= i < |responses| ==> responses[i].ret >= 0) ==>
      && buf == Appended(responses) && reply.ret == TotalOf(responses)
      && reply.serverErrno == if responses == [] then 0 else responses[|responses| - 1].serverErrno
  {
    buf := [];
    var bytesRead := 0;
    var response := ReadResponse(0, 0, []);
    var i := 0;
    while i < |responses|
      invariant 0 <= i <= |responses| && forall k :: 0 <= k < i ==> responses[k].ret >= 0
      invariant response == if i > 0 then responses[i - 1] else ReadResponse(0, 0, [])
      invariant buf == Appended(responses[..i]) && bytesRead == TotalOf(responses[..i])
    {
      response := responses[i];
      if response.ret < 0 {
        assert forall n: nat :: FailsAt(responses, n) ==> n == i;
        return Reply(response.ret, response.serverErrno), buf;
      }
      bytesRead := bytesRead + response.ret;
      buf := buf + response.buf[..response.ret];
      assert responses[..i + 1][..i] == responses[..i];
      i := i + 1;
    }
    assert responses[..i] == responses;
    reply := Reply(bytesRead, response.serverErrno);
  }

  lemma {:induction false} TotalIsLength(responses: seq<ReadResponse>)
    requires forall i :: 0 <= i < |responses| ==> responses[i].ret == |responses[i].buf|
    ensures TotalOf(responses) == |Payload(responses)|
  {
    if responses != [] { TotalIsLength(responses[..|responses| - 1]); }
  }

  /** A streamed buffer is put together again; one that announces a failure is an error. */
  method Receive(responses: seq<ReadResponse>, ghost contents: Bytes) returns (reply: Reply, buf: Bytes)
    requires Streams(responses, contents) || (|responses| == 1 && responses[0].ret < 0)
    ensures Streams(responses, contents) ==> buf == contents && reply == Reply(|contents|, 0)
    ensures |responses| == 1 && responses[0].ret < 0 ==>
      buf == [] && reply == Reply(responses[0].ret, responses[0].serverErrno)
  {
    reply, buf := Reassemble(responses);
    if Streams(responses, contents) {
      AppendedWhole(responses);
      TotalIsLength(responses);
    } else {
      assert FailsAt(responses, 0);
    }
  }

  /** A download gives the client exactly the first bytes of the file, as many as the size requested is
      in 32 bits and one pread moves, and their number, or the server's error. Asked for the file's own
      size it is the whole file exactly when that is below 2^31 bytes and not more than the pread moves;
      otherwise a part of it is reported as success. */
  method DownloadFile(files: map<string, Bytes>, path: string, size: int, moved: nat, errno: int)
    returns (reply: Reply, buf: Bytes)
    requires Allocates(size)
    ensures path in files ==>
      var count := Min(Min(Int32(size), moved), |files[path]|); buf == files[path][..count] && reply == Reply(count, 0)
    ensures path in files && size == |files[path]| ==> (buf == files[path] <==> size < TWO_31 && size <= moved)
    ensures path in files && size == |files[path]| && moved == PREAD_MAX ==> (buf == files[path] <==> size <= PREAD_MAX)
    ensures path !in files ==> buf == [] && reply == Reply(-1, errno)
  {
    var responses := ReadFile(files, path, size, moved, errno);
    ghost var read := if path in files then files[path][..Min(Min(Int32(size), moved), |files[path]|)] else [];
    reply, buf := Receive(responses, read);
    if path in files && size == |files[path]| { Int32Shrinks(size); }
  }

  // ---------------------------------------------------------------------------------------------
  // Directory listing
  // ---------------------------------------------------------------------------------------------

  /** The packed bytes of a list of records. */
  function Concat(entries: seq<Bytes>): Bytes {
    if entries == [] then [] else Concat(entries[..|entries| - 1]) + entries[|entries| - 1]
  }

  ghost predicate FixedWidth(entries: seq<Bytes>, width: nat) {
    forall i :: 0 <= i < |entries| ==> |entries[i]| == width
  }

  lemma {:induction false} PrefixConcat(entries: seq<Bytes>, m: nat)
    requires m <= |entries|
    ensures Concat(entries[..m]) <= Concat(entries)
    ensures m < |entries| ==> Concat(entries[..m + 1]) == Concat(entries[..m]) + entries[m]
  {
    if m < |entries| {
      assert entries[..m + 1][..m] == entries[..m];
      var n := |entries| - 1;
      PrefixConcat(entries[..n], m);
      assert entries[..n][..m] == entries[..m];
    } else {
      assert entries[..m] == entries;
    }
  }

  /** The client's decoding loop over the received bytes: it recovers the records that were packed. */
  method DecodeEntries(buf: Bytes, width: nat, ghost sent: seq<Bytes>) returns (entries: seq<Bytes>)
    requires width > 0 && FixedWidth(sent, width) && buf == Concat(sent)
    ensures entries == sent
  {
    entries := [];
    assert sent[..|sent|] == sent;
    var i := 0;
    while i < |buf|
      invariant |entries| <= |sent| && entries == sent[..|entries|]
      invariant i == |Concat(entries)| <= |buf|
      decreases |buf| - i
    {
      ghost var m := |entries|;
      PrefixConcat(sent, m);
      PrefixConcat(sent, m + 1);
      assert buf[i..i + width] == sent[m];
      entries := entries + [buf[i..i + width]];
      assert entries == sent[..m + 1];
      i := i + width;
    }
    if |entries| < |sent| {
      PrefixConcat(sent, |entries|);
      PrefixConcat(sent, |entries| + 1);
    }
  }

  lemma {:induction false} ConcatSize(entries: seq<Bytes>, width: nat)
    requires FixedWidth(entries, width)
    ensures |Concat(entries)| == |entries| * width
  {
    if entries != [] {
      ConcatSize(entries[..|entries| - 1], width);
      OneMore(|entries| - 1, width);
    }
  }

  /** The bytes of the first `m` records. */
  lemma WholeRecords(entries: seq<Bytes>, width: nat, m: nat)
    requires width > 0 && FixedWidth(entries, width) && m * width <= |Concat(entries)|
    ensures m <= |entries| && Concat(entries)[..m * width] == Concat(entries[..m])
    ensures m * width == |Concat(entries)| <==> m == |entries|
  {
    ConcatSize(entries, width);
    ScaleStrictly(|entries|, m, width);
    ScaleStrictly(m, |entries|, width);
    ConcatSize(entries[..m], width);
    PrefixConcat(entries, m);
  }

  lemma TakesAll<T>(s: seq<T>, m: nat)
    requires m <= |s|
    ensures s[..m] == s <==> m == |s|
  {
    assert |s[..m]| == m;
  }

  /** How many records the received bytes of a listing are. */
  lemma RecordsIn(entries: seq<Bytes>, width: nat, n: nat) returns (m: nat)
    requires width > 0 && FixedWidth(entries, width)
    requires n <= |Concat(entries)| && (n == |Concat(entries)| || n % width == 0)
    ensures m == n / width <= |entries| && Concat(entries)[..n] == Concat(entries[..m])
    ensures entries[..m] == entries <==> n == |Concat(entries)|
  {
    ConcatSize(entries, width);
    Divides(n, |entries|, width);
    m := n / width;
    WholeRecords(entries, width, m);
    TakesAll(entries, m);
  }

  /** The bytes of a listing as the client receives them. */
  method DownloadDir(sent: Bytes) returns (ret: int, buf: Bytes)
    ensures ret == Int32(|sent|)
    ensures ret >= 0 ==> ret <= |sent| && buf == sent[..ret] && (ret == |sent| <==> |sent| < TWO_31)
  {
    Int32Shrinks(|sent|);
    var responses := SendChunks(sent);
    var reply;
    reply, buf := Receive(responses, if Int32(|sent|) >= 0 then sent[..Int32(|sent|)] else []);
    ret := reply.ret;
  }

  /** A listing whose size stays non-negative in 32 bits arrives as its first records, in order, for any
      record width, wherever the chunk boundaries cut them; a negative size fails it. It arrives
      complete exactly below 2^31 bytes. (From there on the precondition keeps the decoding from
      reading half a record past its end.) */
  method ListDirectory(entries: seq<Bytes>, width: nat) returns (ok: bool, listed: seq<Bytes>)
    requires width > 0 && FixedWidth(entries, width)
    requires |Concat(entries)| < TWO_31 || Int32(|Concat(entries)|) % width == 0
    ensures ok <==> Int32(|Concat(entries)|) >= 0
    ensures ok ==>
      var count := Int32(|Concat(entries)|) / width; count <= |entries| && listed == entries[..count]
    ensures ok && listed == entries <==> |Concat(entries)| < TWO_31
  {
    var ret, buf := DownloadDir(Concat(entries));
    ok, listed := ret >= 0, [];
    if ok {
      ghost var m := RecordsIn(entries, width, ret);
      listed := DecodeEntries(buf, width, entries[..m]);
    } else {
      Int32Fits(|Concat(entries)|);
    }
  }
}
