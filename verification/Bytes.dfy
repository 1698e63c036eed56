/** Bytes and `memcpy`. */
module Bytes {

  type byte = bv8

  function Min(a: int, b: int): int {
    if a < b then a else b
  }

  /** A sequence with a part overwritten. */
  function Put<T>(s: seq<T>, at: nat, x: seq<T>): seq<T>
    requires at + |x| <= |s|
  {
    s[..at] + x + s[at + |x|..]
  }

  lemma PutNothing<T>(s: seq<T>, at: nat)
    requires at <= |s|
    ensures Put(s, at, []) == s
  {
  }

  lemma PutAll<T>(s: seq<T>, x: seq<T>)
    requires |x| == |s|
    ensures Put(s, 0, x) == x
  {
  }

  /** A first part of no bytes. */
  lemma NothingTaken<T>(s: seq<T>, d: seq<T>)
    ensures Put(d, 0, s[..0]) == d && s[0..] == s
  {
  }

  /** The first part of a slice, and the rest of it. */
  lemma SliceParts<T>(b: seq<T>, from: nat, to: nat, n: nat)
    requires from + n <= to <= |b|
    ensures b[from..to][..n] == b[from..from + n] && b[from..to][n..] == b[from + n..to]
  {
  }

  lemma PutThere<T>(s: seq<T>, at: nat, x: seq<T>)
    requires at + |x| <= |s|
    ensures |Put(s, at, x)| == |s| && Put(s, at, x)[at..at + |x|] == x
  {
  }

  lemma PutTwice<T>(s: seq<T>, at: nat, x: seq<T>, y: seq<T>)
    requires at + |x| + |y| <= |s|
    ensures |Put(s, at, x)| == |s| && Put(Put(s, at, x), at + |x|, y) == Put(s, at, x + y)
  {
  }

  /** `memcpy(dst + at, src + from, n)`. */
  method Copy(dst: array<byte>, at: nat, src: array<byte>, from: nat, n: nat)
    requires at + n <= dst.Length && from + n <= src.Length && dst != src
    modifies dst
    ensures dst[..] == Put(old(dst[..]), at, src[from..from + n])
  {
    forall i | 0 <= i < n {
      dst[at + i] := src[from + i];
    }
  }
}
