/** The text primitives of the configuration parser: what each scan finds, and the C strings in place. */
module IniText {

  const NUL := '\0'

  /** isspace in the C locale. */
  predicate IsSpace(c: char) {
    c == ' ' || '\t' <= c <= '\r'
  }

  // ---------------------------------------------------------------------------------------------
  // On string values
  // ---------------------------------------------------------------------------------------------

  /** A string without the whitespace at its end. */
  function Stripped(s: string): (r: string)
    ensures r <= s && (r != "" ==> !IsSpace(r[|r| - 1]))
    ensures forall k :: |r| <= k < |s| ==> IsSpace(s[k])
  {
    if s != "" && IsSpace(s[|s| - 1]) then Stripped(s[..|s| - 1]) else s
  }

  /** How much whitespace a string starts with. */
  function Blanks(s: string): (n: nat)
    ensures n <= |s| && (n < |s| ==> !IsSpace(s[n]))
    ensures forall k :: 0 <= k < n ==> IsSpace(s[k])
  {
    if s != "" && IsSpace(s[0]) then 1 + Blanks(s[1..]) else 0
  }

  function Trim(s: string): string {
    Stripped(s[Blanks(s)..])
  }

  /** Position `i` holds one of the characters, or a comment sign right after whitespace. */
  predicate Stops(s: string, i: nat, chars: string)
    requires i < |s|
  {
    s[i] in chars || (s[i] == ';' && i > 0 && IsSpace(s[i - 1]))
  }

  function FindFrom(s: string, i: nat, chars: string): (n: nat)
    requires i <= |s|
    ensures i <= n <= |s| && (n < |s| ==> Stops(s, n, chars))
    ensures forall k :: i <= k < n ==> !Stops(s, k, chars)
    decreases |s| - i
  {
    if i == |s| || Stops(s, i, chars) then i else FindFrom(s, i + 1, chars)
  }

  /** The first stop, or the length when there is none. */
  function Find(s: string, chars: string): (n: nat)
    ensures n <= |s| && (n < |s| ==> Stops(s, n, chars))
    ensures forall k :: 0 <= k < n ==> !Stops(s, k, chars)
  {
    FindFrom(s, 0, chars)
  }

  function Truncated(s: string, max: nat): (r: string)
    ensures r <= s && (|r| == max || r == s) && |r| <= max
  {
    if |s| <= max then s else s[..max]
  }

  lemma StrippedIs(s: string, r: string)
    requires r <= s && (r != "" ==> !IsSpace(r[|r| - 1])) && forall k :: |r| <= k < |s| ==> IsSpace(s[k])
    ensures Stripped(s) == r
  {
    var q := Stripped(s);
    assert |q| == |r|;
  }

  lemma BlanksIs(s: string, n: nat)
    requires n <= |s| && (n < |s| ==> !IsSpace(s[n])) && forall k :: 0 <= k < n ==> IsSpace(s[k])
    ensures Blanks(s) == n
  {
  }

  lemma FindIs(s: string, chars: string, n: nat)
    requires n <= |s| && (n < |s| ==> Stops(s, n, chars)) && forall k :: 0 <= k < n ==> !Stops(s, k, chars)
    ensures Find(s, chars) == n
  {
  }

  // ---------------------------------------------------------------------------------------------
  // In place
  // ---------------------------------------------------------------------------------------------

  /** The buffer holds the C string `t` at position `p`. */
  ghost predicate Holds(b: seq<char>, p: nat, t: string) {
    p + |t| < |b| && b[p + |t|] == NUL && forall k :: 0 <= k < |t| ==> t[k] == b[p + k] && t[k] != NUL
  }

  lemma HoldsSuffix(b: seq<char>, p: nat, t: string, n: nat)
    requires Holds(b, p, t) && n <= |t|
    ensures Holds(b, p + n, t[n..])
  {
  }

  /** Everything outside [lo, hi) is as it was. */
  ghost predicate SameOutside(b: seq<char>, c: seq<char>, lo: nat, hi: nat) {
    |b| == |c| && forall k :: 0 <= k < |b| && !(lo <= k < hi) ==> c[k] == b[k]
  }

  /** A string untouched by a change elsewhere in the buffer. */
  lemma HoldsStill(b: seq<char>, c: seq<char>, lo: nat, hi: nat, p: nat, t: string)
    requires Holds(b, p, t) && SameOutside(b, c, lo, hi) && (hi <= p || p + |t| < lo)
    ensures Holds(c, p, t)
  {
  }

  method StrLen(s: array<char>, p: nat, ghost t: string) returns (n: nat)
    requires Holds(s[..], p, t)
    ensures n == |t|
  {
    n := 0;
    while s[p + n] != NUL
      invariant n <= |t| && (n < |t| ==> t[n] == s[p + n])
      decreases |t| - n
    {
      n := n + 1;
    }
  }

  method StringAt(s: array<char>, p: nat, ghost t: string) returns (r: string)
    requires Holds(s[..], p, t)
    ensures r == t
  {
    var n := StrLen(s, p, t);
    r := s[p..p + n];
  }

  /** Dropping the last character of a string drops it from the buffer. */
  lemma HoldsShorter(b: seq<char>, p: nat, t: string)
    requires t != "" && Holds(b, p, t)
    ensures Holds(b[p + |t| - 1 := NUL], p, t[..|t| - 1])
  {
  }

  /** Whitespace at the end of the string at `p` is overwritten with terminators. */
  method Rstrip(s: array<char>, p: nat, ghost t: string)
    requires Holds(s[..], p, t)
    modifies s
    ensures Holds(s[..], p, Stripped(t)) && SameOutside(old(s[..]), s[..], p, p + |t|)
  {
    var n := StrLen(s, p, t);
    var q := p + n;
    ghost var rest := t;
    while q > p && IsSpace(s[q - 1])
      invariant p <= q == p + |rest| <= p + |t| && Holds(s[..], p, rest)
      invariant SameOutside(old(s[..]), s[..], p, p + |t|)
      invariant Stripped(rest) == Stripped(t)
    {
      HoldsShorter(s[..], p, rest);
      assert rest[|rest| - 1] == s[q - 1];
      q := q - 1;
      rest := rest[..|rest| - 1];
      ghost var before := s[..];
      s[q] := NUL;
      assert s[..] == before[q := NUL];
    }
    assert rest != "" ==> rest[|rest| - 1] == s[q - 1];
  }

  /** The first position from `p` that is not whitespace. */
  method Lskip(s: array<char>, p: nat, ghost t: string) returns (q: nat)
    requires Holds(s[..], p, t)
    ensures q == p + Blanks(t) && Holds(s[..], q, t[Blanks(t)..])
  {
    q := p;
    while s[q] != NUL && IsSpace(s[q])
      invariant p <= q <= p + |t| && forall k :: 0 <= k < q - p ==> IsSpace(t[k])
      decreases p + |t| - q
    {
      assert q < p + |t| && t[q - p] == s[q];
      q := q + 1;
    }
    assert q < p + |t| ==> t[q - p] == s[q];
    BlanksIs(t, q - p);
    HoldsSuffix(s[..], p, t, q - p);
  }

  /** The first of some characters, or of a comment sign after whitespace, or the terminator. */
  method FindCharsOrComment(s: array<char>, p: nat, chars: string, ghost t: string) returns (q: nat)
    requires Holds(s[..], p, t)
    ensures q == p + Find(t, chars)
    ensures q < p + |t| ==> s[q] == t[q - p]
    ensures q == p + |t| ==> s[q] == NUL
  {
    q := p;
    var wasSpace := false;
    while s[q] != NUL && s[q] !in chars && !(wasSpace && s[q] == ';')
      invariant p <= q <= p + |t| && (wasSpace <==> q > p && IsSpace(t[q - p - 1]))
      invariant forall k :: 0 <= k < q - p ==> !Stops(t, k, chars)
      decreases p + |t| - q
    {
      assert q < p + |t| && t[q - p] == s[q];
      wasSpace := IsSpace(s[q]);
      q := q + 1;
    }
    assert q < p + |t| ==> t[q - p] == s[q];
    FindIs(t, chars, q - p);
  }

  /** The string at `p` is split in two by overwriting its character `n`. */
  method Cut(s: array<char>, p: nat, n: nat, ghost t: string)
    requires Holds(s[..], p, t) && n < |t|
    modifies s
    ensures Holds(s[..], p, t[..n]) && Holds(s[..], p + n + 1, t[n + 1..])
    ensures SameOutside(old(s[..]), s[..], p + n, p + n + 1)
  {
    HoldsSuffix(s[..], p, t, n + 1);
    s[p + n] := NUL;
    HoldsStill(old(s[..]), s[..], p + n, p + n + 1, p + n + 1, t[n + 1..]);
  }

  /** Copy at most `size - 1` characters and always terminate. */
  method Strncpy0(dest: array<char>, src: array<char>, p: nat, size: nat, ghost t: string)
    requires dest != src && 0 < size <= dest.Length && Holds(src[..], p, t)
    modifies dest
    ensures Holds(dest[..], 0, Truncated(t, size - 1))
  {
    var i := 0;
    while i < size - 1 && src[p + i] != NUL
      invariant i <= |t| && i <= size - 1 && forall k :: 0 <= k < i ==> t[k] == dest[k]
    {
      assert i < |t| && t[i] == src[p + i];
      dest[i] := src[p + i];
      i := i + 1;
    }
    assert i < |t| ==> t[i] == src[p + i];
    dest[i] := NUL;
  }
}
