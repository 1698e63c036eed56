/** Where the blocks of a memory pool are, as a value: lists of blocks under names that say what the
    list is for, and the place of every block. */
module PoolLayout {

  const CHUNK_SIZE: nat := 300
  const TLS_MAX_CHUNKS: nat := 10

  /** `Cur(c)` is the list a thread allocates from, `Chunk(c, j)` the sealed chunk number `j` of its
      cache and `Common(j)` that of the shared stack, both counted from the bottom.  `Hand(c)` is a
      chunk that the thread is moving, `Held(c)` a single block. */
  datatype Name<Cache> = Cur(c: Cache) | Chunk(c: Cache, j: int) | Common(j: int) | Hand(c: Cache) | Held(c: Cache)

  datatype Place<Cache> = InUse | At(list: Name<Cache>, k: nat)

  /** Lists are written from the bottom, so the last block is the head. */
  datatype Layout<!Block(==), !Cache(==)> = Layout(
    where: map<Block, Place<Cache>>,         // every block ever created
    lists: map<Name<Cache>, seq<Block>>,
    depth: map<Cache, nat>,                  // the caches, and how many sealed chunks each has
    common: nat)                             // how many chunks the shared stack has

  predicate Stacked<Cache>(n: Name<Cache>) {
    n.Chunk? || n.Common?
  }

  function Below<Cache>(n: Name<Cache>): Name<Cache> {
    match n
    case Chunk(c, j) => Chunk(c, j - 1)
    case Common(j) => Common(j - 1)
    case _ => n
  }

  /** Every block is in use or at exactly one place of exactly one list. */
  ghost predicate Placed<Block, Cache>(v: Layout<Block, Cache>) {
    && (forall n, k :: n in v.lists && 0 <= k < |v.lists[n]| ==>
          v.lists[n][k] in v.where && v.where[v.lists[n][k]] == At(n, k))
    && (forall b :: b in v.where && v.where[b].At? ==>
          v.where[b].list in v.lists && v.where[b].k < |v.lists[v.where[b].list]|
          && v.lists[v.where[b].list][v.where[b].k] == b)
  }

  /** The top of a cache's stack of chunks; below the bottom when it is empty. */
  function TopChunk<Block, Cache>(v: Layout<Block, Cache>, c: Cache): Name<Cache>
    requires c in v.depth
  {
    var depth: int := v.depth[c];
    Chunk(c, depth - 1)
  }

  function TopCommon<Block, Cache>(v: Layout<Block, Cache>): Name<Cache> {
    var depth: int := v.common;
    Common(depth - 1)
  }

  predicate Exists<Block, Cache>(v: Layout<Block, Cache>, n: Name<Cache>) {
    match n
    case Cur(c) => c in v.depth
    case Chunk(c, j) => c in v.depth && 0 <= j < v.depth[c]
    case Common(j) => 0 <= j < v.common
    case Hand(c) => c in v.depth
    case Held(c) => c in v.depth
  }

  /** There is one current list for each cache, and one list for each chunk of each stack; there may be
      one in each hand.  All but the current lists have blocks. */
  ghost predicate Named<Block, Cache>(v: Layout<Block, Cache>) {
    && (forall c :: c in v.depth ==> Cur(c) in v.lists)
    && (forall c, j :: c in v.depth && 0 <= j < v.depth[c] ==> Chunk(c, j) in v.lists)
    && (forall j :: 0 <= j < v.common ==> Common(j) in v.lists)
    && (forall n :: n in v.lists ==> Exists(v, n))
    && (forall n :: n in v.lists && !n.Cur? ==> v.lists[n] != [])
  }

  ghost predicate Sound<Block, Cache>(v: Layout<Block, Cache>) {
    Placed(v) && Named(v)
  }

  // ---------------------------------------------------------------- single blocks

  /** `b` joins a list, as its head. */
  function Given<Block, Cache>(v: Layout<Block, Cache>, n: Name<Cache>, b: Block): Layout<Block, Cache>
    requires n in v.lists
  {
    v.(where := v.where[b := At(n, |v.lists[n]|)], lists := v.lists[n := v.lists[n] + [b]])
  }

  function TopOf<Block, Cache>(v: Layout<Block, Cache>, n: Name<Cache>): Block
    requires n in v.lists && v.lists[n] != []
  {
    v.lists[n][|v.lists[n]| - 1]
  }

  /** `Alloc`: the head of the current list is taken into the hand, */
  function Unlinked<Block, Cache>(v: Layout<Block, Cache>, c: Cache): Layout<Block, Cache>
    requires Cur(c) in v.lists && v.lists[Cur(c)] != []
  {
    var b := TopOf(v, Cur(c));
    v.(where := v.where[b := At(Held(c), 0)],
       lists := v.lists[Cur(c) := v.lists[Cur(c)][..|v.lists[Cur(c)]| - 1]][Held(c) := [b]])
  }

  /** and handed out. */
  function Marked<Block, Cache>(v: Layout<Block, Cache>, c: Cache): Layout<Block, Cache>
    requires Held(c) in v.lists && v.lists[Held(c)] != []
  {
    v.(where := v.where[TopOf(v, Held(c)) := InUse], lists := v.lists - {Held(c)})
  }

  /** `Free`: a block comes back into the hand, */
  function Unmarked<Block, Cache>(v: Layout<Block, Cache>, c: Cache, b: Block): Layout<Block, Cache> {
    v.(where := v.where[b := At(Held(c), 0)], lists := v.lists[Held(c) := [b]])
  }

  /** and becomes the head of the current list. */
  function Relinked<Block, Cache>(v: Layout<Block, Cache>, c: Cache): Layout<Block, Cache>
    requires Held(c) in v.lists && v.lists[Held(c)] != [] && Cur(c) in v.lists
  {
    Given(v.(lists := v.lists - {Held(c)}), Cur(c), TopOf(v, Held(c)))
  }

  lemma GivenPlaced<Block, Cache>(v: Layout<Block, Cache>, n: Name<Cache>, b: Block)
    requires Placed(v) && n in v.lists && (b in v.where ==> v.where[b] == InUse)
    ensures Placed(Given(v, n, b))
  {
  }

  lemma UnlinkedSound<Block, Cache>(v: Layout<Block, Cache>, c: Cache)
    requires Sound(v) && c in v.depth && v.lists[Cur(c)] != [] && Held(c) !in v.lists
    ensures Sound(Unlinked(v, c))
  {
    UnlinkedPlaced(v, c);
    hide Placed;
  }

  lemma UnlinkedPlaced<Block, Cache>(v: Layout<Block, Cache>, c: Cache)
    requires Placed(v) && Cur(c) in v.lists && v.lists[Cur(c)] != [] && Held(c) !in v.lists
    ensures Placed(Unlinked(v, c))
  {
  }

  lemma MarkedSound<Block, Cache>(v: Layout<Block, Cache>, c: Cache)
    requires Sound(v) && Held(c) in v.lists && |v.lists[Held(c)]| == 1
    ensures Sound(Marked(v, c))
  {
  }

  lemma UnmarkedSound<Block, Cache>(v: Layout<Block, Cache>, c: Cache, b: Block)
    requires Sound(v) && c in v.depth && Held(c) !in v.lists && b in v.where && v.where[b] == InUse
    ensures Sound(Unmarked(v, c, b))
  {
  }

  lemma RelinkedSound<Block, Cache>(v: Layout<Block, Cache>, c: Cache)
    requires Sound(v) && c in v.depth && Held(c) in v.lists && |v.lists[Held(c)]| == 1
    ensures Sound(Relinked(v, c))
  {
  }

  // ---------------------------------------------------------------- whole lists

  function Renamed<Cache(==)>(place: Place<Cache>, a: Name<Cache>, b: Name<Cache>): Place<Cache> {
    if place.At? && place.list == a then At(b, place.k) else place
  }

  /** The whole list `a` becomes list `b`. */
  function Moved<Block, Cache>(v: Layout<Block, Cache>, a: Name<Cache>, b: Name<Cache>): Layout<Block, Cache>
    requires a in v.lists
  {
    v.(where := map x | x in v.where :: Renamed(v.where[x], a, b),
       lists := (v.lists - {a})[b := v.lists[a]])
  }

  lemma MovedPlaced<Block, Cache>(v: Layout<Block, Cache>, a: Name<Cache>, b: Name<Cache>)
    requires Placed(v) && a in v.lists && a != b && (b in v.lists ==> v.lists[b] == [])
    ensures Placed(Moved(v, a, b))
  {
  }

  /** `Seal`: the current list goes on top of the cache's chunks. */
  function Sealed<Block, Cache>(v: Layout<Block, Cache>, c: Cache): Layout<Block, Cache>
    requires c in v.depth && Cur(c) in v.lists
  {
    var m := Moved(v, Cur(c), Chunk(c, v.depth[c]));
    m.(lists := m.lists[Cur(c) := []], depth := v.depth[c := v.depth[c] + 1])
  }

  /** `Refill`: the top chunk of the cache becomes the current list. */
  function Unsealed<Block, Cache>(v: Layout<Block, Cache>, c: Cache): Layout<Block, Cache>
    requires c in v.depth && v.depth[c] > 0 && TopChunk(v, c) in v.lists
  {
    Moved(v, TopChunk(v, c), Cur(c)).(depth := v.depth[c := v.depth[c] - 1])
  }

  /** `PopChunk`: the top of the shared stack comes into the hand. */
  function Popped<Block, Cache>(v: Layout<Block, Cache>, c: Cache): Layout<Block, Cache>
    requires v.common > 0 && TopCommon(v) in v.lists
  {
    Moved(v, TopCommon(v), Hand(c)).(common := v.common - 1)
  }

  /** `Refill`: the chunk in the hand becomes the current list. */
  function Installed<Block, Cache>(v: Layout<Block, Cache>, c: Cache): Layout<Block, Cache>
    requires Hand(c) in v.lists
  {
    Moved(v, Hand(c), Cur(c))
  }

  /** `Seal` and the cache destructor: the top chunk of the cache comes into the hand. */
  function Drawn<Block, Cache>(v: Layout<Block, Cache>, c: Cache): Layout<Block, Cache>
    requires c in v.depth && v.depth[c] > 0 && TopChunk(v, c) in v.lists
  {
    Moved(v, TopChunk(v, c), Hand(c)).(depth := v.depth[c := v.depth[c] - 1])
  }

  /** The cache destructor: the current list comes into the hand. */
  function Lifted<Block, Cache>(v: Layout<Block, Cache>, c: Cache): Layout<Block, Cache>
    requires Cur(c) in v.lists
  {
    var m := Moved(v, Cur(c), Hand(c));
    m.(lists := m.lists[Cur(c) := []])
  }

  /** `PushChunk`: the chunk in the hand goes on top of the shared stack. */
  function Pushed<Block, Cache>(v: Layout<Block, Cache>, c: Cache): Layout<Block, Cache>
    requires Hand(c) in v.lists
  {
    Moved(v, Hand(c), Common(v.common)).(common := v.common + 1)
  }

  /** New blocks join a list, bottom first. */
  function Extended<Block, Cache>(v: Layout<Block, Cache>, n: Name<Cache>, s: seq<Block>): Layout<Block, Cache>
    requires n in v.lists
    ensures n in Extended(v, n, s).lists
  {
    if s == [] then v else Given(Extended(v, n, s[..|s| - 1]), n, s[|s| - 1])
  }

  /** `NewChunk`: a new chunk in the hand. */
  function Grown<Block, Cache>(v: Layout<Block, Cache>, c: Cache, s: seq<Block>): Layout<Block, Cache> {
    Extended(v.(lists := v.lists[Hand(c) := []]), Hand(c), s)
  }

  lemma SealedSound<Block, Cache>(v: Layout<Block, Cache>, c: Cache)
    requires Sound(v) && c in v.depth && v.lists[Cur(c)] != []
    ensures Sound(Sealed(v, c))
  {
    hide Placed;
    MovedPlaced(v, Cur(c), Chunk(c, v.depth[c]));
    SealedPlaced(v, c);
  }

  lemma SealedPlaced<Block, Cache>(v: Layout<Block, Cache>, c: Cache)
    requires Named(v) && c in v.depth && v.lists[Cur(c)] != [] && Placed(Moved(v, Cur(c), Chunk(c, v.depth[c])))
    ensures Placed(Sealed(v, c))
  {
  }

  lemma TopIsThere<Block, Cache>(v: Layout<Block, Cache>, c: Cache)
    requires Named(v) && c in v.depth && v.depth[c] > 0
    ensures TopChunk(v, c) in v.lists
  {
  }

  lemma UnsealedSound<Block, Cache>(v: Layout<Block, Cache>, c: Cache)
    requires Sound(v) && c in v.depth && v.depth[c] > 0 && v.lists[Cur(c)] == []
    ensures Sound(Unsealed(v, c))
  {
    hide Placed, Named, Unsealed;
    TopIsThere(v, c);
    MovedPlaced(v, TopChunk(v, c), Cur(c));
    UnsealedPlaced(v, c);
    UnsealedNamed(v, c);
  }

  lemma UnsealedNamed<Block, Cache>(v: Layout<Block, Cache>, c: Cache)
    requires Named(v) && c in v.depth && v.depth[c] > 0 && v.lists[Cur(c)] == []
    ensures Named(Unsealed(v, c))
  {
  }

  lemma UnsealedPlaced<Block, Cache>(v: Layout<Block, Cache>, c: Cache)
    requires Named(v) && c in v.depth && v.depth[c] > 0 && v.lists[Cur(c)] == []
    requires Placed(Moved(v, TopChunk(v, c), Cur(c)))
    ensures Placed(Unsealed(v, c))
  {
  }

  lemma PoppedSound<Block, Cache>(v: Layout<Block, Cache>, c: Cache)
    requires Sound(v) && c in v.depth && v.common > 0 && Hand(c) !in v.lists
    ensures Sound(Popped(v, c))
  {
    hide Placed;
    MovedPlaced(v, TopCommon(v), Hand(c));
    PoppedPlaced(v, c);
  }

  lemma PoppedPlaced<Block, Cache>(v: Layout<Block, Cache>, c: Cache)
    requires Named(v) && c in v.depth && v.common > 0 && Hand(c) !in v.lists && Placed(Moved(v, TopCommon(v), Hand(c)))
    ensures Placed(Popped(v, c))
  {
  }

  lemma InstalledSound<Block, Cache>(v: Layout<Block, Cache>, c: Cache)
    requires Sound(v) && c in v.depth && Hand(c) in v.lists && v.lists[Cur(c)] == []
    ensures Sound(Installed(v, c))
  {
    hide Placed;
    MovedPlaced(v, Hand(c), Cur(c));
    InstalledPlaced(v, c);
  }

  lemma InstalledPlaced<Block, Cache>(v: Layout<Block, Cache>, c: Cache)
    requires Named(v) && c in v.depth && Hand(c) in v.lists && v.lists[Cur(c)] == []
    requires Placed(Moved(v, Hand(c), Cur(c)))
    ensures Placed(Installed(v, c))
  {
  }

  lemma DrawnSound<Block, Cache>(v: Layout<Block, Cache>, c: Cache)
    requires Sound(v) && c in v.depth && v.depth[c] > 0 && Hand(c) !in v.lists
    ensures Sound(Drawn(v, c))
  {
    hide Placed, Named, Drawn;
    TopIsThere(v, c);
    MovedPlaced(v, TopChunk(v, c), Hand(c));
    DrawnPlaced(v, c);
    DrawnNamed(v, c);
  }

  lemma DrawnNamed<Block, Cache>(v: Layout<Block, Cache>, c: Cache)
    requires Named(v) && c in v.depth && v.depth[c] > 0 && Hand(c) !in v.lists
    ensures Named(Drawn(v, c))
  {
  }

  lemma DrawnPlaced<Block, Cache>(v: Layout<Block, Cache>, c: Cache)
    requires Named(v) && c in v.depth && v.depth[c] > 0 && Hand(c) !in v.lists
    requires Placed(Moved(v, TopChunk(v, c), Hand(c)))
    ensures Placed(Drawn(v, c))
  {
  }

  lemma LiftedSound<Block, Cache>(v: Layout<Block, Cache>, c: Cache)
    requires Sound(v) && c in v.depth && v.lists[Cur(c)] != [] && Hand(c) !in v.lists
    ensures Sound(Lifted(v, c))
  {
    hide Placed;
    MovedPlaced(v, Cur(c), Hand(c));
    LiftedPlaced(v, c);
  }

  lemma LiftedPlaced<Block, Cache>(v: Layout<Block, Cache>, c: Cache)
    requires Named(v) && c in v.depth && v.lists[Cur(c)] != [] && Hand(c) !in v.lists
    requires Placed(Moved(v, Cur(c), Hand(c)))
    ensures Placed(Lifted(v, c))
  {
  }

  lemma PushedSound<Block, Cache>(v: Layout<Block, Cache>, c: Cache)
    requires Sound(v) && c in v.depth && Hand(c) in v.lists
    ensures Sound(Pushed(v, c))
  {
    hide Placed;
    MovedPlaced(v, Hand(c), Common(v.common));
    PushedPlaced(v, c);
  }

  lemma PushedPlaced<Block, Cache>(v: Layout<Block, Cache>, c: Cache)
    requires Named(v) && c in v.depth && Hand(c) in v.lists && Placed(Moved(v, Hand(c), Common(v.common)))
    ensures Placed(Pushed(v, c))
  {
  }

  // ---------------------------------------------------------------- threads come and go

  function Joined<Block, Cache>(v: Layout<Block, Cache>, c: Cache): Layout<Block, Cache> {
    v.(lists := v.lists[Cur(c) := []], depth := v.depth[c := 0])
  }

  function Left<Block, Cache>(v: Layout<Block, Cache>, c: Cache): Layout<Block, Cache> {
    v.(lists := v.lists - {Cur(c)}, depth := v.depth - {c})
  }

  lemma JoinedSound<Block, Cache>(v: Layout<Block, Cache>, c: Cache)
    requires Sound(v) && c !in v.depth
    ensures Sound(Joined(v, c))
  {
  }

  lemma LeftSound<Block, Cache>(v: Layout<Block, Cache>, c: Cache)
    requires Sound(v) && c in v.depth && v.depth[c] == 0 && v.lists[Cur(c)] == []
    requires Hand(c) !in v.lists && Held(c) !in v.lists
    ensures Sound(Left(v, c))
  {
  }

  function Elements<T(==)>(s: seq<T>): set<T> {
    set x | x in s
  }

  /** A chunk of blocks that the pool has not seen before. */
  ghost predicate New<Block, Cache>(v: Layout<Block, Cache>, s: seq<Block>) {
    && (forall k :: 0 <= k < |s| ==> s[k] !in v.where)
    && (forall j, k :: 0 <= j < k < |s| ==> s[j] != s[k])
  }

  lemma {:induction false} ExtendedPlaced<Block, Cache>(v: Layout<Block, Cache>, n: Name<Cache>, s: seq<Block>)
    requires Placed(v) && n in v.lists && New(v, s)
    ensures Placed(Extended(v, n, s))
  {
    hide Placed;
    if s != [] {
      NewLast(v, s);
      ExtendedPlaced(v, n, s[..|s| - 1]);
      ExtendedKeys(v, n, s[..|s| - 1]);
      GivenPlaced(Extended(v, n, s[..|s| - 1]), n, s[|s| - 1]);
    }
  }

  lemma {:induction false} ExtendedShape<Block, Cache>(v: Layout<Block, Cache>, n: Name<Cache>, s: seq<Block>)
    requires n in v.lists
    ensures var w := Extended(v, n, s);
            w.lists == v.lists[n := v.lists[n] + s] && w.depth == v.depth && w.common == v.common
  {
    if s == [] {
      assert v.lists[n] + s == v.lists[n];
    } else {
      var rest, last := s[..|s| - 1], s[|s| - 1];
      assert s == rest + [last];
      ExtendedShape(v, n, rest);
      assert v.lists[n] + rest + [last] == v.lists[n] + s;
    }
  }

  lemma {:induction false} ExtendedKeys<Block, Cache>(v: Layout<Block, Cache>, n: Name<Cache>, s: seq<Block>)
    requires n in v.lists
    ensures Extended(v, n, s).where.Keys == v.where.Keys + Elements(s)
  {
    if s != [] {
      ExtendedKeys(v, n, s[..|s| - 1]);
      assert s == s[..|s| - 1] + [s[|s| - 1]];
    }
  }

  lemma NewLast<Block, Cache>(v: Layout<Block, Cache>, s: seq<Block>)
    requires New(v, s) && s != []
    ensures New(v, s[..|s| - 1]) && s[|s| - 1] !in v.where.Keys + Elements(s[..|s| - 1])
  {
  }

  lemma {:induction false} ExtendedSize<Block, Cache>(v: Layout<Block, Cache>, n: Name<Cache>, s: seq<Block>)
    requires n in v.lists && New(v, s)
    ensures |Extended(v, n, s).where| == |v.where| + |s|
  {
    hide New, Elements;
    if s != [] {
      var rest, last := s[..|s| - 1], s[|s| - 1];
      NewLast(v, s);
      ExtendedSize(v, n, rest);
      ExtendedKeys(v, n, rest);
      var r := Extended(v, n, rest);
      CountInsert(r.where, last, At(n, |r.lists[n]|));
    }
  }

  lemma CountInsert<K, V>(m: map<K, V>, k: K, v: V)
    requires k !in m
    ensures |m[k := v]| == |m| + 1
  {
    assert m[k := v] - {k} == m;
  }

  // ---------------------------------------------------------------- what moves leave alone

  /** Every stacked chunk of `w` but `t` is the same chunk of `v`, on top of the same chunk. */
  ghost predicate KeepsStacks<Block, Cache>(v: Layout<Block, Cache>, w: Layout<Block, Cache>, t: Name<Cache>) {
    forall n :: n in w.lists && Stacked(n) && n != t ==>
      n in v.lists && w.lists[n] == v.lists[n] && SameAt(v, w, Below(n))
  }

  predicate SameAt<Block(==), Cache(==)>(v: Layout<Block, Cache>, w: Layout<Block, Cache>, n: Name<Cache>) {
    if n in v.lists then n in w.lists && w.lists[n] == v.lists[n] else n !in w.lists
  }

  lemma SealedKeeps<Block, Cache>(v: Layout<Block, Cache>, c: Cache)
    requires Named(v) && c in v.depth
    ensures var w, t := Sealed(v, c), Chunk(c, v.depth[c]);
            && KeepsStacks(v, w, t) && t in w.lists && w.lists[t] == v.lists[Cur(c)]
            && SameAt(v, w, TopChunk(v, c)) && Below(t) == TopChunk(v, c)
  {
  }

  lemma PushedKeeps<Block, Cache>(v: Layout<Block, Cache>, c: Cache)
    requires Named(v) && Hand(c) in v.lists
    ensures var w, t := Pushed(v, c), Common(v.common);
            && KeepsStacks(v, w, t) && t in w.lists && w.lists[t] == v.lists[Hand(c)]
            && SameAt(v, w, TopCommon(v)) && Below(t) == TopCommon(v)
  {
  }

  lemma UnsealedKeeps<Block, Cache>(v: Layout<Block, Cache>, c: Cache)
    requires Named(v) && c in v.depth && v.depth[c] > 0
    ensures KeepsStacks(v, Unsealed(v, c), Cur(c))
  {
  }

  lemma PoppedKeeps<Block, Cache>(v: Layout<Block, Cache>, c: Cache)
    requires Named(v) && v.common > 0
    ensures KeepsStacks(v, Popped(v, c), Cur(c))
  {
  }

  lemma InstalledKeeps<Block, Cache>(v: Layout<Block, Cache>, c: Cache)
    requires Named(v) && Hand(c) in v.lists
    ensures KeepsStacks(v, Installed(v, c), Cur(c))
  {
  }

  lemma DrawnKeeps<Block, Cache>(v: Layout<Block, Cache>, c: Cache)
    requires Named(v) && c in v.depth && v.depth[c] > 0
    ensures KeepsStacks(v, Drawn(v, c), Cur(c))
  {
  }

  lemma LiftedKeeps<Block, Cache>(v: Layout<Block, Cache>, c: Cache)
    requires Named(v) && c in v.depth
    ensures KeepsStacks(v, Lifted(v, c), Cur(c))
  {
  }
}
