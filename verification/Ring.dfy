/** A ring of bytes as a value: what lies between two positions of an array that wraps around. */
module Ring {
  import opened Bytes

  /** `i % n` for a position that has moved by at most one round. */
  function Wrap(i: nat, n: nat): nat {
    if i >= n then i - n else i
  }

  predicate Positions(b: seq<byte>, f: nat, r: nat) {
    f < |b| && r < |b|
  }

  /** The bytes from `f` up to `r`. */
  function Used(b: seq<byte>, f: nat, r: nat): seq<byte>
    requires Positions(b, f, r)
  {
    if f <= r then b[f..r] else b[f..] + b[..r]
  }

  /** The bytes from `r` up to the one before `f`, which stays free so that `f == r` means empty. */
  function Spare(b: seq<byte>, f: nat, r: nat): seq<byte>
    requires Positions(b, f, r)
  {
    if r < f then b[r..f - 1] else if f == 0 then b[r..|b| - 1] else b[r..] + b[..f - 1]
  }

  lemma Sizes(b: seq<byte>, f: nat, r: nat)
    requires Positions(b, f, r)
    ensures |Used(b, f, r)| + |Spare(b, f, r)| == |b| - 1
  {
  }

  /** `i % n` of C++, which has the sign of `i`. */
  function Remainder(i: int, n: nat): int
    requires n > 0
  {
    if i >= 0 then i % n else -((-i) % n)
  }

  lemma WrapIsMod(i: nat, n: nat)
    requires n > 0 && i < 2 * n
    ensures Wrap(i, n) == i % n < n
  {
  }

  /** Moving the rear makes spare bytes used. */
  lemma RearMoves(b: seq<byte>, f: nat, r: nat, n: nat)
    requires Positions(b, f, r) && n <= |Spare(b, f, r)|
    ensures Wrap(r + n, |b|) < |b|
    ensures Used(b, f, Wrap(r + n, |b|)) == Used(b, f, r) + Spare(b, f, r)[..n]
  {
    if r < f {
      RearMovesBelow(b, f, r, n);
    } else if r + n < |b| {
      RearMovesAbove(b, f, r, n);
    } else {
      RearWraps(b, f, r, n);
    }
  }

  lemma RearMovesBelow(b: seq<byte>, f: nat, r: nat, n: nat)
    requires Positions(b, f, r) && r < f && n <= f - 1 - r
    ensures b[f..] + b[..r + n] == Used(b, f, r) + Spare(b, f, r)[..n]
  {
    TwoParts(b, 0, r, r + n);
    SliceParts(b, r, f - 1, n);
    InThree(b[f..], b[..r], b[r..r + n]);
  }

  lemma RearMovesAbove(b: seq<byte>, f: nat, r: nat, n: nat)
    requires Positions(b, f, r) && f <= r && r + n < |b| && n <= |Spare(b, f, r)|
    ensures b[f..r + n] == Used(b, f, r) + Spare(b, f, r)[..n]
  {
    TwoParts(b, f, r, r + n);
    assert Spare(b, f, r)[..n] == b[r..r + n];
  }

  lemma TwoParts(b: seq<byte>, i: nat, j: nat, k: nat)
    requires i <= j <= k <= |b|
    ensures b[i..k] == b[i..j] + b[j..k]
  {
  }

  lemma RearWraps(b: seq<byte>, f: nat, r: nat, n: nat)
    requires Positions(b, f, r) && f <= r && r + n >= |b| && n <= |Spare(b, f, r)|
    ensures r + n - |b| < f
    ensures b[f..] + b[..r + n - |b|] == Used(b, f, r) + Spare(b, f, r)[..n]
  {
    hide Spare;
    SpareWraps(b, f, r, n);
    calc {
      b[f..] + b[..r + n - |b|];
      { TwoParts(b, f, r, |b|); }
      b[f..r] + b[r..] + b[..r + n - |b|];
      { InThree(b[f..r], b[r..], b[..r + n - |b|]); }
      b[f..r] + (b[r..] + b[..r + n - |b|]);
    }
  }

  lemma SpareWraps(b: seq<byte>, f: nat, r: nat, n: nat)
    requires Positions(b, f, r) && f <= r && r + n >= |b| && n <= |Spare(b, f, r)|
    ensures r + n - |b| < f && Spare(b, f, r)[..n] == b[r..] + b[..r + n - |b|]
  {
    FirstOfTwo(b[r..], b[..f - 1], r + n - |b|);
    SliceParts(b, 0, f - 1, r + n - |b|);
  }

  lemma FirstOfTwo(x: seq<byte>, y: seq<byte>, m: nat)
    requires m <= |y|
    ensures (x + y)[..|x| + m] == x + y[..m]
  {
  }

  lemma InThree(x: seq<byte>, y: seq<byte>, z: seq<byte>)
    ensures x + y + z == x + (y + z)
  {
  }

  /** Moving the front drops the oldest bytes. */
  lemma FrontMoves(b: seq<byte>, f: nat, r: nat, n: nat)
    requires Positions(b, f, r) && n <= |Used(b, f, r)|
    ensures Wrap(f + n, |b|) < |b|
    ensures Used(b, Wrap(f + n, |b|), r) == Used(b, f, r)[n..]
  {
  }

  /** `n` bytes from `f` on, in at most two pieces. */
  function Around(b: seq<byte>, f: nat, n: nat): (r: seq<byte>)
    requires f <= |b| && n <= |b|
    ensures |r| == n
  {
    if n <= |b| - f then b[f..f + n] else b[f..] + b[..n - (|b| - f)]
  }

  lemma Oldest(b: seq<byte>, f: nat, r: nat, n: nat)
    requires Positions(b, f, r) && n <= |Used(b, f, r)|
    ensures n <= |b| && Around(b, f, n) == Used(b, f, r)[..n]
  {
  }

  lemma InPieces(b: seq<byte>, f: nat, n: nat, d: seq<byte>, at: nat)
    requires f <= |b| && |b| - f < n <= |b| && at + n <= |d|
    ensures |Put(d, at, b[f..f + (|b| - f)])| == |d|
    ensures Put(Put(d, at, b[f..f + (|b| - f)]), at + (|b| - f), b[0..n - (|b| - f)]) == Put(d, at, Around(b, f, n))
  {
    hide Put;
    assert b[f..f + (|b| - f)] == b[f..] && b[0..n - (|b| - f)] == b[..n - (|b| - f)];
    PutTwice(d, at, b[f..], b[..n - (|b| - f)]);
  }

  /** What writing at the rear in one piece, or in two, does. */
  lemma WrittenOnce(b: seq<byte>, f: nat, r: nat, d: seq<byte>)
    requires Positions(b, f, r) && |d| <= |Spare(b, f, r)| && r + |d| <= |b|
    ensures var w := Put(b, r, d); Positions(w, f, r) && Used(w, f, r) == Used(b, f, r) && Spare(w, f, r)[..|d|] == d
  {
    var w := Put(b, r, d);
    assert |Spare(w, f, r)| == |Spare(b, f, r)|;
    assert w[..r] == b[..r];
    assert w[r..r + |d|] == d;
    if r < f {
      assert w[f..] == b[f..];
    }
    assert Spare(w, f, r)[..|d|] == w[r..r + |d|];
  }

  lemma WrittenTwice(b: seq<byte>, f: nat, r: nat, x: seq<byte>, y: seq<byte>)
    requires Positions(b, f, r) && |x| == |b| - r && y != [] && |x| + |y| <= |Spare(b, f, r)|
    ensures var w := Put(Put(b, r, x), 0, y);
            Positions(w, f, r) && Used(w, f, r) == Used(b, f, r) && Spare(w, f, r)[..|x| + |y|] == x + y
  {
    PutBothEnds(b, r, x, y);
    var w := Put(Put(b, r, x), 0, y);
    hide Put;
    LaterPart(w, |y|, f, r);
    LaterPart(b, |y|, f, r);
    FirstOfTwo(w[r..], w[..f - 1], |y|);
    assert w[..f - 1][..|y|] == w[..|y|];
  }

  lemma LaterPart(b: seq<byte>, i: nat, j: nat, k: nat)
    requires i <= j <= k <= |b|
    ensures b[j..k] == b[i..k][j - i..]
  {
  }

  lemma PutBothEnds(b: seq<byte>, r: nat, x: seq<byte>, y: seq<byte>)
    requires r + |x| == |b| && |y| <= r
    ensures var w := Put(Put(b, r, x), 0, y);
            |w| == |b| && w[r..] == x && w[..|y|] == y && w[|y|..r] == b[|y|..r]
  {
    assert Put(b, r, x) == b[..r] + x;
    assert Put(b[..r] + x, 0, y) == y + (b[..r] + x)[|y|..];
    assert (b[..r] + x)[|y|..] == b[|y|..r] + x;
  }
}
