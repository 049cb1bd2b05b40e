/** Bytes and the one file primitive every other module writes through: POSIX pwrite. */
module FileBytes {

  newtype byte = x: int | 0 <= x < 256

  type Bytes = seq<byte>

  function Max(a: int, b: int): int {
    if a >= b then a else b
  }

  function Min(a: int, b: int): int {
    if a <= b then a else b
  }

  /** The first `n` bytes of `file`, padded with zero bytes when the file is shorter (truncate). */
  function Resize(file: Bytes, n: nat): (r: Bytes)
    ensures |r| == n
    ensures forall k :: 0 <= k < n ==> r[k] == if k < |file| then file[k] else 0
  {
    seq(n, k requires 0 <= k < n => if k < |file| then file[k] else 0)
  }

  /** A complete pwrite: bytes past the old end that are not written read as zero, and writing
      nothing does not extend the file. */
  function Pwrite(file: Bytes, data: Bytes, offset: nat): (r: Bytes)
    ensures |r| == if data == [] then |file| else Max(|file|, offset + |data|)
    ensures forall k :: 0 <= k < |r| ==>
      r[k] == if offset <= k < offset + |data| then data[k - offset] else if k < |file| then file[k] else 0
  {
    if data == [] then file
    else if offset + |data| <= |file| then file[..offset] + data + file[offset + |data|..]
    else Resize(file, offset) + data
  }
}
