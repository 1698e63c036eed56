/** The blocks and caches of a memory pool in memory, and when they represent a layout. */
module PoolMemory {
  import opened PoolLayout

  class Block {
    var next: Block?
    var chunkNext: Block?
    var count: int
    var useFlag: int
    const owner: object

    constructor (owner: object, next: Block?)
      ensures this.owner == owner && this.next == next && useFlag == 0 && chunkNext == null
    {
      this.owner := owner;
      this.next := next;
      chunkNext := null;
      useFlag := 0;
    }
  }

  class Cache {
    var cur: Block?
    var curCount: int
    var chunkTop: Block?
    var chunkCount: int

    constructor ()
      ensures cur == null && curCount == 0 && chunkTop == null && chunkCount == 0
    {
      cur := null;
      curCount := 0;
      chunkTop := null;
      chunkCount := 0;
    }
  }

  /** The fields of a block, as a value. */
  datatype Cell = Cell(next: Block?, chunkNext: Block?, count: int, useFlag: int)

  type View = Layout<Block, Cache>
  type Cells = map<Block, Cell>

  /** The head of a linked list whose blocks are listed from the bottom. */
  function Top(s: seq<Block>): Block? {
    if s == [] then null else s[|s| - 1]
  }

  function ListAt(v: View, n: Name<Cache>): seq<Block> {
    if n in v.lists then v.lists[n] else []
  }

  /** The head of the chunk at one place of a stack of chunks, or null below its bottom. */
  function Head(v: View, n: Name<Cache>): Block? {
    Top(ListAt(v, n))
  }

  // ---------------------------------------------------------------- memory that represents a layout

  /** Blocks of a list are linked from the head down to null; a single block in a hand is between its
      places and may point anywhere. */
  ghost predicate Linked(v: View, mem: Cells) {
    forall n, k {:trigger mem[v.lists[n][k]].next} ::
      n in v.lists && !n.Held? && 0 <= k < |v.lists[n]| && v.lists[n][k] in mem ==>
        mem[v.lists[n][k]].next == if k == 0 then null else v.lists[n][k - 1]
  }

  ghost predicate Flagged(v: View, mem: Cells) {
    forall b :: b in v.where && b in mem ==> mem[b].useFlag == if v.where[b] == InUse then 1 else 0
  }

  /** The head of a stacked chunk has its length and the chunk below. */
  ghost predicate Headed(v: View, mem: Cells) {
    forall n {:trigger HeadCell(v, mem, n)} :: n in v.lists && Stacked(n) && Head(v, n) in mem ==>
      HeadCell(v, mem, n).count == |v.lists[n]| && HeadCell(v, mem, n).chunkNext == Head(v, Below(n))
  }

  function HeadCell(v: View, mem: Cells, n: Name<Cache>): Cell
    requires Head(v, n) in mem
  {
    mem[Head(v, n)]
  }

  /** A layout and the memory that represents it. */
  ghost predicate Represented(v: View, mem: Cells) {
    Sound(v) && mem.Keys == v.where.Keys && Linked(v, mem) && Flagged(v, mem) && Headed(v, mem)
  }

  predicate SameHead(a: Cell, b: Cell) {
    a.count == b.count && a.chunkNext == b.chunkNext
  }

  /** Chunks other than `t` that kept their place in a stack, with the fields of their heads, are still
      represented. */
  lemma HeadedStays(v: View, w: View, mem: Cells, mem': Cells, t: Name<Cache>)
    requires Headed(v, mem) && KeepsStacks(v, w, t)
    requires forall n :: n in w.lists && Stacked(n) && n != t && Head(w, n) in mem' ==>
               Head(w, n) in mem && SameHead(mem[Head(w, n)], mem'[Head(w, n)])
    requires t in w.lists && Stacked(t) && Head(w, t) in mem' ==>
               mem'[Head(w, t)].count == |w.lists[t]| && mem'[Head(w, t)].chunkNext == Head(w, Below(t))
    ensures Headed(w, mem')
  {
    forall n | n in w.lists && Stacked(n) && Head(w, n) in mem'
      ensures HeadCell(w, mem', n).count == |w.lists[n]| && HeadCell(w, mem', n).chunkNext == Head(w, Below(n))
    {
      if n != t {
        assert HeadCell(v, mem, n) == mem[Head(v, n)];
        assert SameAt(v, w, Below(n));
      }
    }
  }

  /** No chunk came or changed on a stack. */
  lemma HeadedKept(v: View, w: View, mem: Cells, mem': Cells, c: Cache)
    requires Headed(v, mem) && KeepsStacks(v, w, Cur(c))
    requires forall b :: b in mem' ==> b in mem && SameHead(mem[b], mem'[b])
    ensures Headed(w, mem')
  {
    HeadedStays(v, w, mem, mem', Cur(c));
  }

  lemma TopPlaced(v: View, mem: Cells, n: Name<Cache>)
    requires Placed(v) && n in v.lists && v.lists[n] != [] && v.where.Keys == mem.Keys
    ensures var b := Top(v.lists[n]); b in mem && b in v.where && v.where[b] == At(n, |v.lists[n]| - 1)
    ensures Linked(v, mem) && !n.Held? ==> mem[Top(v.lists[n])].next == Top(v.lists[n][..|v.lists[n]| - 1])
  {
    var b := v.lists[n][|v.lists[n]| - 1];
    if Linked(v, mem) && !n.Held? {
      assert mem[b].next == if |v.lists[n]| == 1 then null else v.lists[n][|v.lists[n]| - 2];
    }
  }

  lemma StackHead(v: View, mem: Cells, n: Name<Cache>)
    requires Represented(v, mem) && n in v.lists && Stacked(n)
    ensures var h := Head(v, n); h in mem && mem[h].count == |v.lists[n]| && mem[h].chunkNext == Head(v, Below(n))
  {
    TopPlaced(v, mem, n);
    assert HeadCell(v, mem, n).count == |v.lists[n]|;
  }

  /** The heads of different lists are different blocks. */
  lemma HeadsDiffer(v: View, n: Name<Cache>)
    requires Placed(v) && n in v.lists && v.lists[n] != []
    ensures Head(v, n) in v.where
    ensures forall m :: m in v.lists && m != n ==> Head(v, m) != Head(v, n)
  {
    var h := v.lists[n][|v.lists[n]| - 1];
    forall m | m in v.lists && m != n && v.lists[m] != [] ensures Head(v, m) != Head(v, n) {
      var g := v.lists[m][|v.lists[m]| - 1];
      assert v.where[g] == At(m, |v.lists[m]| - 1);
    }
  }

  lemma IdleFlag(v: View, mem: Cells, b: Block)
    requires Represented(v, mem) && b in mem
    ensures b in v.where && mem[b].useFlag == if v.where[b] == InUse then 1 else 0
  {
  }

  lemma SameSize<K, V, U>(a: map<K, V>, b: map<K, U>)
    requires a.Keys == b.Keys
    ensures |a| == |b|
  {
    assert |a.Keys| == |a| && |b.Keys| == |b|;
  }

  // ---------------------------------------------------------------- what a thread sees

  /** The lists of one thread. */
  datatype Seen = Seen(cur: seq<Block>, depth: nat, chunkTop: Block?, hand: seq<Block>, held: seq<Block>)

  function See(v: View, c: Cache): Seen
    requires c in v.depth
  {
    Seen(ListAt(v, Cur(c)), v.depth[c], Head(v, TopChunk(v, c)), ListAt(v, Hand(c)), ListAt(v, Held(c)))
  }

  /** The other threads see what they saw. */
  ghost predicate OthersSame(v: View, w: View, c: Cache) {
    && w.depth.Keys == v.depth.Keys
    && forall d :: d in v.depth && d != c ==> See(w, d) == See(v, d)
  }

  lemma OthersSee(v: View, w: View, c: Cache)
    requires w.depth.Keys == v.depth.Keys && forall d :: d in v.depth && d != c ==> w.depth[d] == v.depth[d]
    requires forall n: Name<Cache> :: !n.Common? && n.c != c ==> ListAt(w, n) == ListAt(v, n)
    ensures OthersSame(v, w, c)
  {
    hide Top, ListAt;
  }

  lemma ChunksSeen(v: View, c: Cache)
    requires Named(v) && c in v.depth
    ensures Cur(c) in v.lists && (v.depth[c] > 0 <==> See(v, c).chunkTop != null)
    ensures v.depth[c] > 0 ==> TopChunk(v, c) in v.lists
    ensures Hand(c) in v.lists <==> See(v, c).hand != []
    ensures Held(c) in v.lists <==> See(v, c).held != []
    ensures v.common > 0 <==> Head(v, TopCommon(v)) != null
    ensures v.common > 0 ==> TopCommon(v) in v.lists
  {
  }

  // ---------------------------------------------------------------- single blocks

  lemma UnlinkedLinked(v: View, mem: Cells, c: Cache, b: Block)
    requires Placed(v) && Named(v) && c in v.depth && v.lists[Cur(c)] != [] && Held(c) !in v.lists
    requires b == Top(v.lists[Cur(c)])
    requires mem.Keys == v.where.Keys && Linked(v, mem)
    ensures b in mem && Linked(Unlinked(v, c), mem[b := mem[b]])
  {
    TopPlaced(v, mem, Cur(c));
  }

  lemma UnlinkedFlagged(v: View, mem: Cells, c: Cache, b: Block)
    requires Placed(v) && Named(v) && c in v.depth && v.lists[Cur(c)] != [] && Held(c) !in v.lists
    requires b == Top(v.lists[Cur(c)])
    requires mem.Keys == v.where.Keys && Flagged(v, mem)
    ensures b in mem && Flagged(Unlinked(v, c), mem[b := mem[b]])
  {
    TopPlaced(v, mem, Cur(c));
  }

  lemma UnlinkedKeeps(v: View, c: Cache)
    requires Named(v) && c in v.depth && v.lists[Cur(c)] != [] && Held(c) !in v.lists
    ensures KeepsStacks(v, Unlinked(v, c), Cur(c))
  {
  }

  lemma UnlinkedOthers(v: View, c: Cache)
    requires Named(v) && c in v.depth && v.lists[Cur(c)] != [] && Held(c) !in v.lists
    ensures OthersSame(v, Unlinked(v, c), c)
  {
    hide OthersSame, See;
    OthersSee(v, Unlinked(v, c), c);
  }

  lemma UnlinkedOwn(v: View, c: Cache)
    requires Named(v) && c in v.depth && v.lists[Cur(c)] != [] && Held(c) !in v.lists
    ensures See(Unlinked(v, c), c)
            == See(v, c).(cur := See(v, c).cur[..|See(v, c).cur| - 1], held := [Top(See(v, c).cur)])
  {
  }

  lemma UnlinkedSeen(v: View, c: Cache)
    requires Named(v) && c in v.depth && v.lists[Cur(c)] != [] && Held(c) !in v.lists
    ensures OthersSame(v, Unlinked(v, c), c)
    ensures See(Unlinked(v, c), c)
            == See(v, c).(cur := See(v, c).cur[..|See(v, c).cur| - 1], held := [Top(See(v, c).cur)])
    ensures Head(Unlinked(v, c), TopCommon(Unlinked(v, c))) == Head(v, TopCommon(v))
  {
    hide OthersSame, See;
    UnlinkedOthers(v, c);
    UnlinkedOwn(v, c);
  }

  lemma UnlinkedRepresented(v: View, mem: Cells, c: Cache, b: Block)
    requires Represented(v, mem) && c in v.depth && v.lists[Cur(c)] != [] && Held(c) !in v.lists
    requires b == Top(v.lists[Cur(c)])
    ensures b in mem && Represented(Unlinked(v, c), mem[b := mem[b]]) && |Unlinked(v, c).where| == |v.where|
  {
    hide Placed, Linked, Flagged, Headed, KeepsStacks, Unlinked;
    UnlinkedLinked(v, mem, c, b);
    UnlinkedFlagged(v, mem, c, b);
    UnlinkedSound(v, c);
    UnlinkedKeeps(v, c);
    UnlinkedKeys(v, mem, c, b);
    HeadedKept(v, Unlinked(v, c), mem, mem[b := mem[b]], c);
    SameSize(Unlinked(v, c).where, v.where);
  }

  lemma UnlinkedKeys(v: View, mem: Cells, c: Cache, b: Block)
    requires Placed(v) && Named(v) && c in v.depth && v.lists[Cur(c)] != [] && Held(c) !in v.lists
    requires b == Top(v.lists[Cur(c)]) && mem.Keys == v.where.Keys
    ensures Unlinked(v, c).where.Keys == v.where.Keys
  {
    TopPlaced(v, mem, Cur(c));
  }

  lemma MarkedLinked(v: View, mem: Cells, c: Cache, b: Block)
    requires Placed(v) && Named(v) && c in v.depth && Held(c) in v.lists && |v.lists[Held(c)]| == 1
    requires b == Top(v.lists[Held(c)])
    requires mem.Keys == v.where.Keys && Linked(v, mem)
    ensures b in mem && Linked(Marked(v, c), mem[b := mem[b].(useFlag := 1)])
  {
    TopPlaced(v, mem, Held(c));
  }

  lemma MarkedFlagged(v: View, mem: Cells, c: Cache, b: Block)
    requires Placed(v) && Named(v) && c in v.depth && Held(c) in v.lists && |v.lists[Held(c)]| == 1
    requires b == Top(v.lists[Held(c)])
    requires mem.Keys == v.where.Keys && Flagged(v, mem)
    ensures b in mem && Flagged(Marked(v, c), mem[b := mem[b].(useFlag := 1)])
  {
    TopPlaced(v, mem, Held(c));
  }

  lemma MarkedKeeps(v: View, c: Cache)
    requires Named(v) && c in v.depth && Held(c) in v.lists && |v.lists[Held(c)]| == 1
    ensures KeepsStacks(v, Marked(v, c), Cur(c))
  {
  }

  lemma MarkedOthers(v: View, c: Cache)
    requires Named(v) && c in v.depth && Held(c) in v.lists && |v.lists[Held(c)]| == 1
    ensures OthersSame(v, Marked(v, c), c)
  {
    hide OthersSame, See;
    OthersSee(v, Marked(v, c), c);
  }

  lemma MarkedOwn(v: View, c: Cache)
    requires Named(v) && c in v.depth && Held(c) in v.lists && |v.lists[Held(c)]| == 1
    ensures See(Marked(v, c), c) == See(v, c).(held := [])
  {
  }

  lemma MarkedSeen(v: View, c: Cache)
    requires Named(v) && c in v.depth && Held(c) in v.lists && |v.lists[Held(c)]| == 1
    ensures OthersSame(v, Marked(v, c), c)
    ensures See(Marked(v, c), c) == See(v, c).(held := [])
    ensures Head(Marked(v, c), TopCommon(Marked(v, c))) == Head(v, TopCommon(v))
  {
    hide OthersSame, See;
    MarkedOthers(v, c);
    MarkedOwn(v, c);
  }

  lemma MarkedRepresented(v: View, mem: Cells, c: Cache, b: Block)
    requires Represented(v, mem) && c in v.depth && Held(c) in v.lists && |v.lists[Held(c)]| == 1
    requires b == Top(v.lists[Held(c)])
    ensures b in mem && Represented(Marked(v, c), mem[b := mem[b].(useFlag := 1)]) && |Marked(v, c).where| == |v.where|
  {
    hide Placed, Linked, Flagged, Headed, KeepsStacks, Marked;
    MarkedLinked(v, mem, c, b);
    MarkedFlagged(v, mem, c, b);
    MarkedSound(v, c);
    MarkedKeeps(v, c);
    MarkedKeys(v, mem, c, b);
    HeadedKept(v, Marked(v, c), mem, mem[b := mem[b].(useFlag := 1)], c);
    SameSize(Marked(v, c).where, v.where);
  }

  lemma MarkedKeys(v: View, mem: Cells, c: Cache, b: Block)
    requires Placed(v) && Named(v) && c in v.depth && Held(c) in v.lists && |v.lists[Held(c)]| == 1
    requires b == Top(v.lists[Held(c)]) && mem.Keys == v.where.Keys
    ensures Marked(v, c).where.Keys == v.where.Keys
  {
    TopPlaced(v, mem, Held(c));
  }

  lemma UnmarkedLinked(v: View, mem: Cells, c: Cache, b: Block)
    requires Placed(v) && Named(v) && c in v.depth && Held(c) !in v.lists && b in v.where && v.where[b] == InUse
    requires mem.Keys == v.where.Keys && Linked(v, mem)
    ensures b in mem && Linked(Unmarked(v, c, b), mem[b := mem[b].(useFlag := 0)])
  {
  }

  lemma UnmarkedFlagged(v: View, mem: Cells, c: Cache, b: Block)
    requires Placed(v) && Named(v) && c in v.depth && Held(c) !in v.lists && b in v.where && v.where[b] == InUse
    requires mem.Keys == v.where.Keys && Flagged(v, mem)
    ensures b in mem && Flagged(Unmarked(v, c, b), mem[b := mem[b].(useFlag := 0)])
  {
  }

  lemma UnmarkedKeeps(v: View, c: Cache, b: Block)
    requires Named(v) && c in v.depth && Held(c) !in v.lists && b in v.where && v.where[b] == InUse
    ensures KeepsStacks(v, Unmarked(v, c, b), Cur(c))
  {
  }

  lemma UnmarkedOthers(v: View, c: Cache, b: Block)
    requires Named(v) && c in v.depth && Held(c) !in v.lists && b in v.where && v.where[b] == InUse
    ensures OthersSame(v, Unmarked(v, c, b), c)
  {
    hide OthersSame, See;
    OthersSee(v, Unmarked(v, c, b), c);
  }

  lemma UnmarkedOwn(v: View, c: Cache, b: Block)
    requires Named(v) && c in v.depth && Held(c) !in v.lists && b in v.where && v.where[b] == InUse
    ensures See(Unmarked(v, c, b), c) == See(v, c).(held := [b])
  {
  }

  lemma UnmarkedSeen(v: View, c: Cache, b: Block)
    requires Named(v) && c in v.depth && Held(c) !in v.lists && b in v.where && v.where[b] == InUse
    ensures OthersSame(v, Unmarked(v, c, b), c)
    ensures See(Unmarked(v, c, b), c) == See(v, c).(held := [b])
    ensures Head(Unmarked(v, c, b), TopCommon(Unmarked(v, c, b))) == Head(v, TopCommon(v))
  {
    hide OthersSame, See;
    UnmarkedOthers(v, c, b);
    UnmarkedOwn(v, c, b);
  }

  lemma UnmarkedRepresented(v: View, mem: Cells, c: Cache, b: Block)
    requires Represented(v, mem) && c in v.depth && Held(c) !in v.lists && b in v.where && v.where[b] == InUse
    ensures b in mem && Represented(Unmarked(v, c, b), mem[b := mem[b].(useFlag := 0)])
    ensures |Unmarked(v, c, b).where| == |v.where|
  {
    hide Placed, Linked, Flagged, Headed, KeepsStacks, Unmarked;
    UnmarkedLinked(v, mem, c, b);
    UnmarkedFlagged(v, mem, c, b);
    UnmarkedSound(v, c, b);
    UnmarkedKeeps(v, c, b);
    UnmarkedKeys(v, mem, c, b);
    HeadedKept(v, Unmarked(v, c, b), mem, mem[b := mem[b].(useFlag := 0)], c);
    SameSize(Unmarked(v, c, b).where, v.where);
  }

  lemma UnmarkedKeys(v: View, mem: Cells, c: Cache, b: Block)
    requires Placed(v) && Named(v) && c in v.depth && Held(c) !in v.lists && b in v.where
    requires v.where[b] == InUse && mem.Keys == v.where.Keys
    ensures Unmarked(v, c, b).where.Keys == v.where.Keys
  {
  }

  lemma RelinkedLinked(v: View, mem: Cells, c: Cache, b: Block)
    requires Placed(v) && Named(v) && c in v.depth && Held(c) in v.lists && |v.lists[Held(c)]| == 1
    requires b == Top(v.lists[Held(c)])
    requires mem.Keys == v.where.Keys && Linked(v, mem)
    ensures b in mem && Linked(Relinked(v, c), mem[b := mem[b].(next := Top(v.lists[Cur(c)]))])
  {
    TopPlaced(v, mem, Held(c));
  }

  lemma RelinkedFlagged(v: View, mem: Cells, c: Cache, b: Block)
    requires Placed(v) && Named(v) && c in v.depth && Held(c) in v.lists && |v.lists[Held(c)]| == 1
    requires b == Top(v.lists[Held(c)])
    requires mem.Keys == v.where.Keys && Flagged(v, mem)
    ensures b in mem && Flagged(Relinked(v, c), mem[b := mem[b].(next := Top(v.lists[Cur(c)]))])
  {
    TopPlaced(v, mem, Held(c));
  }

  lemma RelinkedKeeps(v: View, c: Cache)
    requires Named(v) && c in v.depth && Held(c) in v.lists && |v.lists[Held(c)]| == 1
    ensures KeepsStacks(v, Relinked(v, c), Cur(c))
  {
  }

  lemma RelinkedOthers(v: View, c: Cache)
    requires Named(v) && c in v.depth && Held(c) in v.lists && |v.lists[Held(c)]| == 1
    ensures OthersSame(v, Relinked(v, c), c)
  {
    hide OthersSame, See;
    OthersSee(v, Relinked(v, c), c);
  }

  lemma RelinkedOwn(v: View, c: Cache)
    requires Named(v) && c in v.depth && Held(c) in v.lists && |v.lists[Held(c)]| == 1
    ensures See(Relinked(v, c), c) == See(v, c).(cur := See(v, c).cur + See(v, c).held, held := [])
  {
  }

  lemma RelinkedSeen(v: View, c: Cache)
    requires Named(v) && c in v.depth && Held(c) in v.lists && |v.lists[Held(c)]| == 1
    ensures OthersSame(v, Relinked(v, c), c)
    ensures See(Relinked(v, c), c) == See(v, c).(cur := See(v, c).cur + See(v, c).held, held := [])
    ensures Head(Relinked(v, c), TopCommon(Relinked(v, c))) == Head(v, TopCommon(v))
  {
    hide OthersSame, See;
    RelinkedOthers(v, c);
    RelinkedOwn(v, c);
  }

  lemma RelinkedRepresented(v: View, mem: Cells, c: Cache, b: Block)
    requires Represented(v, mem) && c in v.depth && Held(c) in v.lists && |v.lists[Held(c)]| == 1
    requires b == Top(v.lists[Held(c)])
    ensures b in mem && Represented(Relinked(v, c), mem[b := mem[b].(next := Top(v.lists[Cur(c)]))])
    ensures |Relinked(v, c).where| == |v.where|
  {
    hide Placed, Linked, Flagged, Headed, KeepsStacks, Relinked;
    RelinkedLinked(v, mem, c, b);
    RelinkedFlagged(v, mem, c, b);
    RelinkedSound(v, c);
    RelinkedKeeps(v, c);
    RelinkedKeys(v, mem, c, b);
    HeadedKept(v, Relinked(v, c), mem, mem[b := mem[b].(next := Top(v.lists[Cur(c)]))], c);
    SameSize(Relinked(v, c).where, v.where);
  }

  lemma RelinkedKeys(v: View, mem: Cells, c: Cache, b: Block)
    requires Placed(v) && Named(v) && c in v.depth && Held(c) in v.lists && |v.lists[Held(c)]| == 1
    requires b == Top(v.lists[Held(c)]) && mem.Keys == v.where.Keys
    ensures Relinked(v, c).where.Keys == v.where.Keys
  {
    TopPlaced(v, mem, Held(c));
  }

  // ---------------------------------------------------------------- whole lists

  lemma MovedLinked(v: View, mem: Cells, mem': Cells, a: Name<Cache>, b: Name<Cache>)
    requires Linked(v, mem) && a in v.lists && !a.Held?
    requires forall x :: x in mem' ==> x in mem && mem'[x].next == mem[x].next
    ensures Linked(Moved(v, a, b), mem')
  {
  }

  lemma MovedFlagged(v: View, mem: Cells, mem': Cells, a: Name<Cache>, b: Name<Cache>)
    requires Flagged(v, mem) && a in v.lists
    requires forall x :: x in mem' ==> x in mem && mem'[x].useFlag == mem[x].useFlag
    ensures Flagged(Moved(v, a, b), mem')
  {
  }

  lemma MovedKeys(v: View, a: Name<Cache>, b: Name<Cache>)
    requires a in v.lists
    ensures Moved(v, a, b).where.Keys == v.where.Keys && |Moved(v, a, b).where| == |v.where|
  {
    SameSize(Moved(v, a, b).where, v.where);
  }

  /** An empty list more, or other counts of chunks, change nothing for single blocks. */
  lemma RelabelledRest(v: View, w: View, mem: Cells)
    requires Linked(v, mem) && Flagged(v, mem) && w.where == v.where
    requires forall n :: n in w.lists ==> w.lists[n] == [] || (n in v.lists && v.lists[n] == w.lists[n])
    ensures Linked(w, mem) && Flagged(w, mem)
  {
  }

  /** The head of a chunk is written as the top of a stack. */
  function HeadWritten(cell: Cell, count: int, below: Block?): Cell {
    cell.(count := count, chunkNext := below)
  }

  lemma HeadedWrite(v: View, w: View, mem: Cells, a: Name<Cache>, t: Name<Cache>, h: Block)
    requires Placed(v) && Headed(v, mem) && mem.Keys == v.where.Keys && KeepsStacks(v, w, t)
    requires a in v.lists && v.lists[a] != [] && h == Head(v, a) && !Stacked(a)
    requires t in w.lists && Stacked(t) && w.lists[t] == v.lists[a] && SameAt(v, w, Below(t))
    ensures h in mem && Headed(w, mem[h := HeadWritten(mem[h], |v.lists[a]|, Head(v, Below(t)))])
  {
    HeadsDiffer(v, a);
    hide Placed;
    HeadedStays(v, w, mem, mem[h := HeadWritten(mem[h], |v.lists[a]|, Head(v, Below(t)))], t);
  }

  lemma SealedRest(v: View, mem: Cells, mem': Cells, c: Cache)
    requires c in v.depth && Cur(c) in v.lists && v.lists[Cur(c)] != [] && Linked(v, mem)
    requires Flagged(v, mem) && mem.Keys == v.where.Keys
    requires mem'.Keys == mem.Keys
    requires forall x :: x in mem ==> mem'[x].next == mem[x].next && mem'[x].useFlag == mem[x].useFlag
    ensures Linked(Sealed(v, c), mem') && Flagged(Sealed(v, c), mem') && mem'.Keys == Sealed(v, c).where.Keys
    ensures |Sealed(v, c).where| == |v.where|
  {
    hide Moved, Linked, Flagged;
    MovedLinked(v, mem, mem', Cur(c), Chunk(c, v.depth[c]));
    MovedFlagged(v, mem, mem', Cur(c), Chunk(c, v.depth[c]));
    MovedKeys(v, Cur(c), Chunk(c, v.depth[c]));
    RelabelledRest(Moved(v, Cur(c), Chunk(c, v.depth[c])), Sealed(v, c), mem');
  }

  lemma SealedOthers(v: View, c: Cache)
    requires Named(v) && c in v.depth && v.lists[Cur(c)] != []
    ensures OthersSame(v, Sealed(v, c), c)
  {
    hide OthersSame, See;
    OthersSee(v, Sealed(v, c), c);
  }

  lemma SealedOwn(v: View, c: Cache)
    requires Named(v) && c in v.depth && v.lists[Cur(c)] != []
    ensures See(Sealed(v, c), c) == See(v, c).(cur := [], depth := See(v, c).depth + 1, chunkTop := Top(See(v, c).cur))
  {
    hide Top;
  }

  lemma SealedSeen(v: View, c: Cache)
    requires Named(v) && c in v.depth && v.lists[Cur(c)] != []
    ensures OthersSame(v, Sealed(v, c), c)
    ensures See(Sealed(v, c), c) == See(v, c).(cur := [], depth := See(v, c).depth + 1, chunkTop := Top(See(v, c).cur))
    ensures Head(Sealed(v, c), TopCommon(Sealed(v, c))) == Head(v, TopCommon(v))
  {
    hide OthersSame, See;
    SealedOthers(v, c);
    SealedOwn(v, c);
  }

  lemma SealedRepresented(v: View, mem: Cells, c: Cache, h: Block)
    requires Represented(v, mem) && c in v.depth && v.lists[Cur(c)] != [] && h == Head(v, Cur(c))
    ensures h in mem && |Sealed(v, c).where| == |v.where|
    ensures Represented(Sealed(v, c), mem[h := HeadWritten(mem[h], |v.lists[Cur(c)]|, Head(v, TopChunk(v, c)))])
  {
    hide Placed, Linked, Flagged, Headed, Sealed, KeepsStacks;
    SealedSound(v, c);
    SealedKeeps(v, c);
    HeadedWrite(v, Sealed(v, c), mem, Cur(c), Chunk(c, v.depth[c]), h);
    SealedRest(v, mem, mem[h := HeadWritten(mem[h], |v.lists[Cur(c)]|, Head(v, TopChunk(v, c)))], c);
  }

  lemma UnsealedRest(v: View, mem: Cells, mem': Cells, c: Cache)
    requires c in v.depth && v.depth[c] > 0 && Cur(c) in v.lists && v.lists[Cur(c)] == []
    requires TopChunk(v, c) in v.lists && Linked(v, mem) && Flagged(v, mem) && mem.Keys == v.where.Keys
    requires mem'.Keys == mem.Keys
    requires forall x :: x in mem ==> mem'[x].next == mem[x].next && mem'[x].useFlag == mem[x].useFlag
    ensures Linked(Unsealed(v, c), mem') && Flagged(Unsealed(v, c), mem')
    ensures mem'.Keys == Unsealed(v, c).where.Keys && |Unsealed(v, c).where| == |v.where|
  {
    hide Moved, Linked, Flagged;
    MovedLinked(v, mem, mem', TopChunk(v, c), Cur(c));
    MovedFlagged(v, mem, mem', TopChunk(v, c), Cur(c));
    MovedKeys(v, TopChunk(v, c), Cur(c));
    RelabelledRest(Moved(v, TopChunk(v, c), Cur(c)), Unsealed(v, c), mem');
  }

  lemma UnsealedOthers(v: View, c: Cache)
    requires Named(v) && c in v.depth && v.depth[c] > 0 && v.lists[Cur(c)] == []
    ensures OthersSame(v, Unsealed(v, c), c)
  {
    hide OthersSame, See;
    OthersSee(v, Unsealed(v, c), c);
  }

  lemma UnsealedOwn(v: View, c: Cache)
    requires Named(v) && c in v.depth && v.depth[c] > 0 && v.lists[Cur(c)] == []
    ensures See(Unsealed(v, c), c)
            == See(v, c).(cur := v.lists[TopChunk(v, c)], depth := See(v, c).depth - 1,
              chunkTop := Head(v, Below(TopChunk(v, c))))
  {
    hide Top;
  }

  lemma UnsealedSeen(v: View, c: Cache)
    requires Named(v) && c in v.depth && v.depth[c] > 0 && v.lists[Cur(c)] == []
    ensures OthersSame(v, Unsealed(v, c), c)
    ensures See(Unsealed(v, c), c)
            == See(v, c).(cur := v.lists[TopChunk(v, c)], depth := See(v, c).depth - 1,
              chunkTop := Head(v, Below(TopChunk(v, c))))
    ensures Head(Unsealed(v, c), TopCommon(Unsealed(v, c))) == Head(v, TopCommon(v))
  {
    hide OthersSame, See;
    UnsealedOthers(v, c);
    UnsealedOwn(v, c);
  }

  lemma UnsealedRepresented(v: View, mem: Cells, c: Cache)
    requires Represented(v, mem) && c in v.depth && v.depth[c] > 0 && v.lists[Cur(c)] == []
    ensures Represented(Unsealed(v, c), mem) && |Unsealed(v, c).where| == |v.where|
  {
    hide Placed, Linked, Flagged, Headed, Unsealed, KeepsStacks;
    UnsealedSound(v, c);
    UnsealedKeeps(v, c);
    HeadedKept(v, Unsealed(v, c), mem, mem, c);
    UnsealedRest(v, mem, mem, c);
  }

  lemma PoppedRest(v: View, mem: Cells, mem': Cells, c: Cache)
    requires c in v.depth && v.common > 0 && Hand(c) !in v.lists && TopCommon(v) in v.lists && Linked(v, mem)
    requires Flagged(v, mem) && mem.Keys == v.where.Keys
    requires mem'.Keys == mem.Keys
    requires forall x :: x in mem ==> mem'[x].next == mem[x].next && mem'[x].useFlag == mem[x].useFlag
    ensures Linked(Popped(v, c), mem') && Flagged(Popped(v, c), mem') && mem'.Keys == Popped(v, c).where.Keys
    ensures |Popped(v, c).where| == |v.where|
  {
    hide Moved, Linked, Flagged;
    MovedLinked(v, mem, mem', TopCommon(v), Hand(c));
    MovedFlagged(v, mem, mem', TopCommon(v), Hand(c));
    MovedKeys(v, TopCommon(v), Hand(c));
    RelabelledRest(Moved(v, TopCommon(v), Hand(c)), Popped(v, c), mem');
  }

  lemma PoppedOthers(v: View, c: Cache)
    requires Named(v) && c in v.depth && v.common > 0 && Hand(c) !in v.lists
    ensures OthersSame(v, Popped(v, c), c)
  {
    hide OthersSame, See;
    OthersSee(v, Popped(v, c), c);
  }

  lemma PoppedOwn(v: View, c: Cache)
    requires Named(v) && c in v.depth && v.common > 0 && Hand(c) !in v.lists
    ensures See(Popped(v, c), c) == See(v, c).(hand := v.lists[TopCommon(v)])
  {
    hide Top;
  }

  lemma PoppedSeen(v: View, c: Cache)
    requires Named(v) && c in v.depth && v.common > 0 && Hand(c) !in v.lists
    ensures OthersSame(v, Popped(v, c), c)
    ensures See(Popped(v, c), c) == See(v, c).(hand := v.lists[TopCommon(v)])
    ensures Head(Popped(v, c), TopCommon(Popped(v, c))) == Head(v, Below(TopCommon(v)))
  {
    hide OthersSame, See;
    PoppedOthers(v, c);
    PoppedOwn(v, c);
  }

  lemma PoppedRepresented(v: View, mem: Cells, c: Cache)
    requires Represented(v, mem) && c in v.depth && v.common > 0 && Hand(c) !in v.lists
    ensures Represented(Popped(v, c), mem) && |Popped(v, c).where| == |v.where|
  {
    hide Placed, Linked, Flagged, Headed, Popped, KeepsStacks;
    PoppedSound(v, c);
    PoppedKeeps(v, c);
    HeadedKept(v, Popped(v, c), mem, mem, c);
    PoppedRest(v, mem, mem, c);
  }

  lemma InstalledRest(v: View, mem: Cells, mem': Cells, c: Cache)
    requires c in v.depth && Hand(c) in v.lists && Cur(c) in v.lists && v.lists[Cur(c)] == []
    requires Linked(v, mem) && Flagged(v, mem) && mem.Keys == v.where.Keys
    requires mem'.Keys == mem.Keys
    requires forall x :: x in mem ==> mem'[x].next == mem[x].next && mem'[x].useFlag == mem[x].useFlag
    ensures Linked(Installed(v, c), mem') && Flagged(Installed(v, c), mem')
    ensures mem'.Keys == Installed(v, c).where.Keys && |Installed(v, c).where| == |v.where|
  {
    hide Moved, Linked, Flagged;
    MovedLinked(v, mem, mem', Hand(c), Cur(c));
    MovedFlagged(v, mem, mem', Hand(c), Cur(c));
    MovedKeys(v, Hand(c), Cur(c));
    RelabelledRest(Moved(v, Hand(c), Cur(c)), Installed(v, c), mem');
  }

  lemma InstalledOthers(v: View, c: Cache)
    requires Named(v) && c in v.depth && Hand(c) in v.lists && v.lists[Cur(c)] == []
    ensures OthersSame(v, Installed(v, c), c)
  {
    hide OthersSame, See;
    OthersSee(v, Installed(v, c), c);
  }

  lemma InstalledOwn(v: View, c: Cache)
    requires Named(v) && c in v.depth && Hand(c) in v.lists && v.lists[Cur(c)] == []
    ensures See(Installed(v, c), c) == See(v, c).(cur := See(v, c).hand, hand := [])
  {
    hide Top;
  }

  lemma InstalledSeen(v: View, c: Cache)
    requires Named(v) && c in v.depth && Hand(c) in v.lists && v.lists[Cur(c)] == []
    ensures OthersSame(v, Installed(v, c), c)
    ensures See(Installed(v, c), c) == See(v, c).(cur := See(v, c).hand, hand := [])
    ensures Head(Installed(v, c), TopCommon(Installed(v, c))) == Head(v, TopCommon(v))
  {
    hide OthersSame, See;
    InstalledOthers(v, c);
    InstalledOwn(v, c);
  }

  lemma InstalledRepresented(v: View, mem: Cells, c: Cache)
    requires Represented(v, mem) && c in v.depth && Hand(c) in v.lists && v.lists[Cur(c)] == []
    ensures Represented(Installed(v, c), mem) && |Installed(v, c).where| == |v.where|
  {
    hide Placed, Linked, Flagged, Headed, Installed, KeepsStacks;
    InstalledSound(v, c);
    InstalledKeeps(v, c);
    HeadedKept(v, Installed(v, c), mem, mem, c);
    InstalledRest(v, mem, mem, c);
  }

  lemma DrawnRest(v: View, mem: Cells, mem': Cells, c: Cache)
    requires c in v.depth && v.depth[c] > 0 && Hand(c) !in v.lists && TopChunk(v, c) in v.lists
    requires Linked(v, mem) && Flagged(v, mem) && mem.Keys == v.where.Keys
    requires mem'.Keys == mem.Keys
    requires forall x :: x in mem ==> mem'[x].next == mem[x].next && mem'[x].useFlag == mem[x].useFlag
    ensures Linked(Drawn(v, c), mem') && Flagged(Drawn(v, c), mem') && mem'.Keys == Drawn(v, c).where.Keys
    ensures |Drawn(v, c).where| == |v.where|
  {
    hide Moved, Linked, Flagged;
    MovedLinked(v, mem, mem', TopChunk(v, c), Hand(c));
    MovedFlagged(v, mem, mem', TopChunk(v, c), Hand(c));
    MovedKeys(v, TopChunk(v, c), Hand(c));
    RelabelledRest(Moved(v, TopChunk(v, c), Hand(c)), Drawn(v, c), mem');
  }

  lemma DrawnOthers(v: View, c: Cache)
    requires Named(v) && c in v.depth && v.depth[c] > 0 && Hand(c) !in v.lists
    ensures OthersSame(v, Drawn(v, c), c)
  {
    hide OthersSame, See;
    OthersSee(v, Drawn(v, c), c);
  }

  lemma DrawnOwn(v: View, c: Cache)
    requires Named(v) && c in v.depth && v.depth[c] > 0 && Hand(c) !in v.lists
    ensures See(Drawn(v, c), c)
            == See(v, c).(hand := v.lists[TopChunk(v, c)], depth := See(v, c).depth - 1,
              chunkTop := Head(v, Below(TopChunk(v, c))))
  {
    hide Top;
  }

  lemma DrawnSeen(v: View, c: Cache)
    requires Named(v) && c in v.depth && v.depth[c] > 0 && Hand(c) !in v.lists
    ensures OthersSame(v, Drawn(v, c), c)
    ensures See(Drawn(v, c), c)
            == See(v, c).(hand := v.lists[TopChunk(v, c)], depth := See(v, c).depth - 1,
              chunkTop := Head(v, Below(TopChunk(v, c))))
    ensures Head(Drawn(v, c), TopCommon(Drawn(v, c))) == Head(v, TopCommon(v))
  {
    hide OthersSame, See;
    DrawnOthers(v, c);
    DrawnOwn(v, c);
  }

  lemma DrawnRepresented(v: View, mem: Cells, c: Cache)
    requires Represented(v, mem) && c in v.depth && v.depth[c] > 0 && Hand(c) !in v.lists
    ensures Represented(Drawn(v, c), mem) && |Drawn(v, c).where| == |v.where|
  {
    hide Placed, Linked, Flagged, Headed, Drawn, KeepsStacks;
    DrawnSound(v, c);
    DrawnKeeps(v, c);
    HeadedKept(v, Drawn(v, c), mem, mem, c);
    DrawnRest(v, mem, mem, c);
  }

  lemma LiftedRest(v: View, mem: Cells, mem': Cells, c: Cache)
    requires c in v.depth && Cur(c) in v.lists && v.lists[Cur(c)] != [] && Hand(c) !in v.lists
    requires Linked(v, mem) && Flagged(v, mem) && mem.Keys == v.where.Keys
    requires mem'.Keys == mem.Keys
    requires forall x :: x in mem ==> mem'[x].next == mem[x].next && mem'[x].useFlag == mem[x].useFlag
    ensures Linked(Lifted(v, c), mem') && Flagged(Lifted(v, c), mem') && mem'.Keys == Lifted(v, c).where.Keys
    ensures |Lifted(v, c).where| == |v.where|
  {
    hide Moved, Linked, Flagged;
    MovedLinked(v, mem, mem', Cur(c), Hand(c));
    MovedFlagged(v, mem, mem', Cur(c), Hand(c));
    MovedKeys(v, Cur(c), Hand(c));
    RelabelledRest(Moved(v, Cur(c), Hand(c)), Lifted(v, c), mem');
  }

  lemma LiftedOthers(v: View, c: Cache)
    requires Named(v) && c in v.depth && v.lists[Cur(c)] != [] && Hand(c) !in v.lists
    ensures OthersSame(v, Lifted(v, c), c)
  {
    hide OthersSame, See;
    OthersSee(v, Lifted(v, c), c);
  }

  lemma LiftedOwn(v: View, c: Cache)
    requires Named(v) && c in v.depth && v.lists[Cur(c)] != [] && Hand(c) !in v.lists
    ensures See(Lifted(v, c), c) == See(v, c).(cur := [], hand := See(v, c).cur)
  {
    hide Top;
  }

  lemma LiftedSeen(v: View, c: Cache)
    requires Named(v) && c in v.depth && v.lists[Cur(c)] != [] && Hand(c) !in v.lists
    ensures OthersSame(v, Lifted(v, c), c)
    ensures See(Lifted(v, c), c) == See(v, c).(cur := [], hand := See(v, c).cur)
    ensures Head(Lifted(v, c), TopCommon(Lifted(v, c))) == Head(v, TopCommon(v))
  {
    hide OthersSame, See;
    LiftedOthers(v, c);
    LiftedOwn(v, c);
  }

  lemma LiftedRepresented(v: View, mem: Cells, c: Cache)
    requires Represented(v, mem) && c in v.depth && v.lists[Cur(c)] != [] && Hand(c) !in v.lists
    ensures Represented(Lifted(v, c), mem) && |Lifted(v, c).where| == |v.where|
  {
    hide Placed, Linked, Flagged, Headed, Lifted, KeepsStacks;
    LiftedSound(v, c);
    LiftedKeeps(v, c);
    HeadedKept(v, Lifted(v, c), mem, mem, c);
    LiftedRest(v, mem, mem, c);
  }

  lemma PushedRest(v: View, mem: Cells, mem': Cells, c: Cache)
    requires c in v.depth && Hand(c) in v.lists && Linked(v, mem) && Flagged(v, mem)
    requires mem.Keys == v.where.Keys
    requires mem'.Keys == mem.Keys
    requires forall x :: x in mem ==> mem'[x].next == mem[x].next && mem'[x].useFlag == mem[x].useFlag
    ensures Linked(Pushed(v, c), mem') && Flagged(Pushed(v, c), mem') && mem'.Keys == Pushed(v, c).where.Keys
    ensures |Pushed(v, c).where| == |v.where|
  {
    hide Moved, Linked, Flagged;
    MovedLinked(v, mem, mem', Hand(c), Common(v.common));
    MovedFlagged(v, mem, mem', Hand(c), Common(v.common));
    MovedKeys(v, Hand(c), Common(v.common));
    RelabelledRest(Moved(v, Hand(c), Common(v.common)), Pushed(v, c), mem');
  }

  lemma PushedOthers(v: View, c: Cache)
    requires Named(v) && c in v.depth && Hand(c) in v.lists
    ensures OthersSame(v, Pushed(v, c), c)
  {
    hide OthersSame, See;
    OthersSee(v, Pushed(v, c), c);
  }

  lemma PushedOwn(v: View, c: Cache)
    requires Named(v) && c in v.depth && Hand(c) in v.lists
    ensures See(Pushed(v, c), c) == See(v, c).(hand := [])
  {
    hide Top;
  }

  lemma PushedSeen(v: View, c: Cache)
    requires Named(v) && c in v.depth && Hand(c) in v.lists
    ensures OthersSame(v, Pushed(v, c), c)
    ensures See(Pushed(v, c), c) == See(v, c).(hand := [])
    ensures Head(Pushed(v, c), TopCommon(Pushed(v, c))) == Top(See(v, c).hand)
  {
    hide OthersSame;
    PushedOthers(v, c);
    PushedOwn(v, c);
  }

  lemma PushedRepresented(v: View, mem: Cells, c: Cache, h: Block)
    requires Represented(v, mem) && c in v.depth && Hand(c) in v.lists && h == Head(v, Hand(c))
    ensures h in mem && |Pushed(v, c).where| == |v.where|
    ensures Represented(Pushed(v, c), mem[h := HeadWritten(mem[h], |v.lists[Hand(c)]|, Head(v, TopCommon(v)))])
  {
    hide Placed, Linked, Flagged, Headed, Pushed, KeepsStacks;
    PushedSound(v, c);
    PushedKeeps(v, c);
    HeadedWrite(v, Pushed(v, c), mem, Hand(c), Common(v.common), h);
    PushedRest(v, mem, mem[h := HeadWritten(mem[h], |v.lists[Hand(c)]|, Head(v, TopCommon(v)))], c);
  }

  /** Count and link in the head of a list that is not stacked mean nothing yet. */
  lemma LooseHeadIsFree(v: View, mem: Cells, n: Name<Cache>, h: Block, cell: Cell)
    requires Represented(v, mem) && n in v.lists && v.lists[n] != [] && h == Top(v.lists[n]) && !Stacked(n)
    requires h in mem && cell.next == mem[h].next && cell.useFlag == mem[h].useFlag
    ensures Represented(v, mem[h := cell])
  {
    HeadsDiffer(v, n);
    var mem' := mem[h := cell];
    assert Linked(v, mem');
    assert Flagged(v, mem');
    hide Placed, Linked, Flagged;
    SameKeepsStacks(v, n);
    HeadedStays(v, v, mem, mem', n);
  }

  lemma SameKeepsStacks(v: View, n: Name<Cache>)
    ensures KeepsStacks(v, v, n)
  {
  }

  // ---------------------------------------------------------------- new chunks

  /** The blocks of a chunk, linked from the top down to null. */
  ghost predicate Chained(s: seq<Block>, mem: Cells) {
    forall k {:trigger s[k]} :: 0 <= k < |s| ==>
      s[k] in mem && mem[s[k]].useFlag == 0 && mem[s[k]].next == Top(s[..k])
  }

  lemma ChainedPrefix(s: seq<Block>, mem: Cells)
    requires s != [] && Chained(s, mem)
    ensures Chained(s[..|s| - 1], mem)
  {
    forall k | 0 <= k < |s| - 1 ensures s[..|s| - 1][..k] == s[..k] {}
  }

  lemma {:induction false} ExtendedFlagged(v: View, mem: Cells, n: Name<Cache>, s: seq<Block>)
    requires n in v.lists && Flagged(v, mem) && Chained(s, mem)
    ensures Flagged(Extended(v, n, s), mem)
  {
    if s != [] {
      ChainedPrefix(s, mem);
      ExtendedFlagged(v, mem, n, s[..|s| - 1]);
    }
  }

  lemma ExtendedLinked(v: View, w: View, mem: Cells, n: Name<Cache>, s: seq<Block>)
    requires Linked(v, mem) && Chained(s, mem)
    requires w.lists == v.lists[n := s]
    ensures Linked(w, mem)
  {
  }

  /** Memory that has grown by the cells of new blocks. */
  ghost predicate Grows(mem: Cells, mem': Cells, s: seq<Block>) {
    && mem'.Keys == mem.Keys + Elements(s)
    && (forall b :: b in mem ==> mem'[b] == mem[b])
  }

  lemma GrownOldCells(v: View, mem: Cells, mem': Cells, s: seq<Block>)
    requires Placed(v) && Named(v) && mem.Keys == v.where.Keys && Linked(v, mem) && Flagged(v, mem) && Headed(v, mem)
    requires Grows(mem, mem', s) && New(v, s)
    ensures Linked(v, mem') && Flagged(v, mem') && Headed(v, mem')
  {
    forall n | n in v.lists && Stacked(n) && Head(v, n) in mem'
      ensures HeadCell(v, mem', n).count == |v.lists[n]| && HeadCell(v, mem', n).chunkNext == Head(v, Below(n))
    {
      assert HeadCell(v, mem, n).count == |v.lists[n]|;
    }
  }

  lemma GrownIsExtended(v: View, c: Cache, s: seq<Block>)
    requires New(v, s)
    ensures var w := Grown(v, c, s);
            w.lists == v.lists[Hand(c) := s] && w.depth == v.depth && w.common == v.common
    ensures Grown(v, c, s).where.Keys == v.where.Keys + Elements(s) && |Grown(v, c, s).where| == |v.where| + |s|
  {
    hide Extended, New, Elements;
    GrownLists(v, c, s);
    var e := v.(lists := v.lists[Hand(c) := []]);
    NewAnyway(v, e, s);
    ExtendedKeys(e, Hand(c), s);
    ExtendedSize(e, Hand(c), s);
  }

  lemma GrownLists(v: View, c: Cache, s: seq<Block>)
    ensures var w := Grown(v, c, s);
            w.lists == v.lists[Hand(c) := s] && w.depth == v.depth && w.common == v.common
  {
    hide Extended;
    ExtendedShape(v.(lists := v.lists[Hand(c) := []]), Hand(c), s);
    assert [] + s == s;
    assert v.lists[Hand(c) := []][Hand(c) := s] == v.lists[Hand(c) := s];
  }

  lemma NewAnyway(v: View, e: View, s: seq<Block>)
    requires New(v, s) && e.where == v.where
    ensures New(e, s)
  {
  }

  lemma GrownPlaced(v: View, c: Cache, s: seq<Block>)
    requires Placed(v) && Hand(c) !in v.lists && New(v, s)
    ensures Placed(Grown(v, c, s))
  {
    var e := v.(lists := v.lists[Hand(c) := []]);
    assert Placed(e);
    ExtendedPlaced(e, Hand(c), s);
  }

  lemma GrownFlagged(v: View, mem: Cells, c: Cache, s: seq<Block>)
    requires Flagged(v, mem) && Chained(s, mem)
    ensures Flagged(Grown(v, c, s), mem)
  {
    ExtendedFlagged(v.(lists := v.lists[Hand(c) := []]), mem, Hand(c), s);
  }

  lemma GrownRepresented(v: View, mem: Cells, mem': Cells, c: Cache, s: seq<Block>)
    requires Represented(v, mem) && c in v.depth && Hand(c) !in v.lists && s != [] && New(v, s)
    requires Grows(mem, mem', s) && Chained(s, mem')
    ensures Represented(Grown(v, c, s), mem') && |Grown(v, c, s).where| == |v.where| + |s|
  {
    hide Placed, Named, Linked, Flagged, Headed, New, Chained, KeepsStacks, Grown, Elements;
    var w := Grown(v, c, s);
    GrownPlaced(v, c, s);
    GrownIsExtended(v, c, s);
    GrownOldCells(v, mem, mem', s);
    GrownFlagged(v, mem', c, s);
    ExtendedLinked(v, w, mem', Hand(c), s);
    GrownKeeps(v, w, c, s);
    HeadedKept(v, w, mem', mem', c);
  }

  lemma GrownKeeps(v: View, w: View, c: Cache, s: seq<Block>)
    requires Named(v) && c in v.depth && s != []
    requires w.lists == v.lists[Hand(c) := s] && w.depth == v.depth && w.common == v.common
    ensures KeepsStacks(v, w, Cur(c)) && Named(w)
  {
  }

  lemma GrownSeen(v: View, c: Cache, s: seq<Block>)
    requires Named(v) && c in v.depth && Hand(c) !in v.lists && New(v, s)
    ensures OthersSame(v, Grown(v, c, s), c)
    ensures See(Grown(v, c, s), c) == See(v, c).(hand := s)
    ensures Head(Grown(v, c, s), TopCommon(Grown(v, c, s))) == Head(v, TopCommon(v))
  {
    hide Grown, OthersSame, New;
    GrownIsExtended(v, c, s);
    GrownOthers(v, Grown(v, c, s), c, s);
  }

  lemma GrownOthers(v: View, w: View, c: Cache, s: seq<Block>)
    requires w.lists == v.lists[Hand(c) := s] && w.depth == v.depth
    ensures OthersSame(v, w, c)
  {
    hide OthersSame, See;
    OthersSee(v, w, c);
  }

  // ---------------------------------------------------------------- threads come and go

  lemma JoinedRepresented(v: View, mem: Cells, c: Cache)
    requires Represented(v, mem) && c !in v.depth
    ensures Represented(Joined(v, c), mem)
  {
    hide Placed, Linked, Flagged, Headed, KeepsStacks, Joined, Named;
    JoinedSound(v, c);
    JoinedLists(v, c);
    RelabelledRest(v, Joined(v, c), mem);
    HeadedKept(v, Joined(v, c), mem, mem, c);
  }

  lemma JoinedLists(v: View, c: Cache)
    requires Named(v) && c !in v.depth
    ensures Joined(v, c).where == v.where && KeepsStacks(v, Joined(v, c), Cur(c))
    ensures forall n :: n in Joined(v, c).lists ==>
            Joined(v, c).lists[n] == [] || (n in v.lists && v.lists[n] == Joined(v, c).lists[n])
  {
  }

  lemma JoinedOthers(v: View, c: Cache)
    requires Named(v) && c !in v.depth
    ensures Joined(v, c).depth.Keys == v.depth.Keys + {c}
    ensures forall d :: d in v.depth ==> See(Joined(v, c), d) == See(v, d)
  {
    hide Top, See;
    forall d | d in v.depth ensures See(Joined(v, c), d) == See(v, d) {
      JoinedOther(v, c, d);
    }
  }

  lemma JoinedOther(v: View, c: Cache, d: Cache)
    requires c !in v.depth && d in v.depth
    ensures See(Joined(v, c), d) == See(v, d)
  {
    hide Top;
  }

  lemma JoinedCommon(v: View, c: Cache)
    ensures Head(Joined(v, c), TopCommon(Joined(v, c))) == Head(v, TopCommon(v))
  {
  }

  lemma JoinedOwn(v: View, c: Cache)
    requires Named(v) && c !in v.depth
    ensures See(Joined(v, c), c) == Seen([], 0, null, [], [])
  {
  }

  lemma LeftRepresented(v: View, mem: Cells, c: Cache)
    requires Represented(v, mem) && c in v.depth && See(v, c).cur == [] && v.depth[c] == 0
    requires See(v, c).hand == [] && See(v, c).held == []
    ensures Represented(Left(v, c), mem)
  {
    ChunksSeen(v, c);
    hide Placed, Linked, Flagged, Headed, KeepsStacks, Left, Named;
    LeftSound(v, c);
    LeftLists(v, c);
    RelabelledRest(v, Left(v, c), mem);
    HeadedKept(v, Left(v, c), mem, mem, c);
  }

  lemma LeftLists(v: View, c: Cache)
    requires Named(v) && c in v.depth && v.depth[c] == 0
    ensures Left(v, c).where == v.where && KeepsStacks(v, Left(v, c), Cur(c))
    ensures forall n :: n in Left(v, c).lists ==> n in v.lists && v.lists[n] == Left(v, c).lists[n]
  {
  }

  lemma LeftSeen(v: View, c: Cache)
    requires Named(v) && c in v.depth && v.depth[c] == 0
    ensures Left(v, c).depth.Keys == v.depth.Keys - {c}
    ensures Head(Left(v, c), TopCommon(Left(v, c))) == Head(v, TopCommon(v))
    ensures forall d :: d in Left(v, c).depth ==> See(Left(v, c), d) == See(v, d)
  {
    hide Top;
  }

  lemma Prefixes(s: seq<Block>, b: Block)
    ensures forall k :: 0 <= k <= |s| ==> (s + [b])[..k] == s[..k]
  {
  }
}
