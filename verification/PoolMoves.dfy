/** What each move of blocks does to the memory of the pool, for the thread that makes it. */
module PoolMoves {
  import opened PoolLayout
  import opened PoolMemory
  import opened PoolMachine

  lemma SizedKept(v: View, w: View, c: Cache)
    requires Sized(v) && KeepsStacks(v, w, Cur(c))
    ensures Sized(w)
  {
  }

  lemma SizedMore(v: View, w: View, t: Name<Cache>)
    requires Sized(v) && KeepsStacks(v, w, t) && t in w.lists
    requires (t.Chunk? ==> |w.lists[t]| == CHUNK_SIZE) && (t.Common? ==> |w.lists[t]| <= CHUNK_SIZE)
    ensures Sized(w)
  {
  }

  lemma SoundView(v: View, mem: Cells)
    requires Represented(v, mem)
    ensures Sound(v) && Named(v) && Placed(v) && mem.Keys == v.where.Keys
  {
  }

  lemma StillThere(v: View, w: View, c: Cache)
    requires OthersSame(v, w, c) && c in v.depth
    ensures c in w.depth
  {
  }

  // ---------------------------------------------------------------- what a move does to the memory

  /** The blocks of `v` in memory `mem` have become those of `w` in memory `mem'`, for the thread `c`. */
  ghost predicate Moves(v: View, w: View, mem': Cells, c: Cache) {
    Represented(w, mem') && Sized(w) && OthersSame(v, w, c) && |w.where| == |v.where| && c in v.depth && c in w.depth
  }

  ghost predicate InOrder(v: View, mem: Cells, c: Cache) {
    Represented(v, mem) && Sized(v) && c in v.depth
  }

  /** A list with its head in memory and its length in the head. */
  ghost predicate IsChunk(x: seq<Block>, head: Block?, mem: Cells) {
    x != [] && head == Top(x) && head in mem && mem[head].count == |x| <= CHUNK_SIZE
  }

  lemma TopSize(v: View, c: Cache)
    requires Sized(v)
    ensures c in v.depth && TopChunk(v, c) in v.lists ==>
            |v.lists[TopChunk(v, c)]| == CHUNK_SIZE && Stacked(TopChunk(v, c))
    ensures TopCommon(v) in v.lists ==> |v.lists[TopCommon(v)]| <= CHUNK_SIZE
    ensures Stacked(TopCommon(v))
  {
  }

  lemma UnsealMoves(v: View, mem: Cells, c: Cache) returns (x: seq<Block>)
    requires InOrder(v, mem, c) && See(v, c).cur == [] && See(v, c).chunkTop != null
    ensures Possible(v, c, Unseal) && Moves(v, Unsealed(v, c), mem, c)
    ensures IsChunk(x, See(v, c).chunkTop, mem) && See(v, c).depth > 0
    ensures See(Unsealed(v, c), c)
            == See(v, c).(cur := x, depth := See(v, c).depth - 1, chunkTop := mem[See(v, c).chunkTop].chunkNext)
    ensures Head(Unsealed(v, c), TopCommon(Unsealed(v, c))) == Head(v, TopCommon(v))
  {
    hide Represented, Sized, OthersSame, KeepsStacks, TopCommon, TopChunk, Unsealed;
    SoundView(v, mem);
    ChunksSeen(v, c);
    TopSize(v, c);
    StackHead(v, mem, TopChunk(v, c));
    UnsealedRepresented(v, mem, c);
    UnsealedSeen(v, c);
    UnsealedKeeps(v, c);
    SizedKept(v, Unsealed(v, c), c);
    x := v.lists[TopChunk(v, c)];
    StillThere(v, Unsealed(v, c), c);
  }

  lemma PopMoves(v: View, mem: Cells, c: Cache) returns (x: seq<Block>)
    requires InOrder(v, mem, c) && See(v, c).hand == [] && Head(v, TopCommon(v)) != null
    ensures Possible(v, c, Pop) && Moves(v, Popped(v, c), mem, c)
    ensures IsChunk(x, Head(v, TopCommon(v)), mem) && See(Popped(v, c), c) == See(v, c).(hand := x)
    ensures Head(Popped(v, c), TopCommon(Popped(v, c))) == mem[Head(v, TopCommon(v))].chunkNext
  {
    hide Represented, Sized, OthersSame, KeepsStacks, TopCommon, TopChunk, Popped;
    SoundView(v, mem);
    ChunksSeen(v, c);
    TopSize(v, c);
    StackHead(v, mem, TopCommon(v));
    PoppedRepresented(v, mem, c);
    PoppedSeen(v, c);
    PoppedKeeps(v, c);
    SizedKept(v, Popped(v, c), c);
    x := v.lists[TopCommon(v)];
    StillThere(v, Popped(v, c), c);
  }

  lemma InstallMoves(v: View, mem: Cells, c: Cache)
    requires InOrder(v, mem, c) && See(v, c).hand != [] && See(v, c).cur == []
    ensures Possible(v, c, Install) && Moves(v, Installed(v, c), mem, c)
    ensures See(Installed(v, c), c) == See(v, c).(cur := See(v, c).hand, hand := [])
    ensures Head(Installed(v, c), TopCommon(Installed(v, c))) == Head(v, TopCommon(v))
  {
    hide Represented, Sized, OthersSame, KeepsStacks, TopCommon, TopChunk, Installed;
    SoundView(v, mem);
    ChunksSeen(v, c);
    TopSize(v, c);
    InstalledRepresented(v, mem, c);
    InstalledSeen(v, c);
    InstalledKeeps(v, c);
    SizedKept(v, Installed(v, c), c);
    StillThere(v, Installed(v, c), c);
  }

  lemma DrawMoves(v: View, mem: Cells, c: Cache) returns (x: seq<Block>)
    requires InOrder(v, mem, c) && See(v, c).hand == [] && See(v, c).chunkTop != null
    ensures Possible(v, c, Draw) && Moves(v, Drawn(v, c), mem, c)
    ensures IsChunk(x, See(v, c).chunkTop, mem) && See(v, c).depth > 0
    ensures See(Drawn(v, c), c)
            == See(v, c).(hand := x, depth := See(v, c).depth - 1, chunkTop := mem[See(v, c).chunkTop].chunkNext)
    ensures Head(Drawn(v, c), TopCommon(Drawn(v, c))) == Head(v, TopCommon(v))
  {
    hide Represented, Sized, OthersSame, KeepsStacks, TopCommon, TopChunk, Drawn, Possible, MoveBy;
    SoundView(v, mem);
    ChunksSeen(v, c);
    TopSize(v, c);
    StackHead(v, mem, TopChunk(v, c));
    DrawnRepresented(v, mem, c);
    DrawnSeen(v, c);
    DrawnKeeps(v, c);
    SizedKept(v, Drawn(v, c), c);
    x := v.lists[TopChunk(v, c)];
    CanDraw(v, c);
    StillThere(v, Drawn(v, c), c);
  }

  lemma CanDraw(v: View, c: Cache)
    requires c in v.depth && v.depth[c] > 0 && TopChunk(v, c) in v.lists
    ensures Possible(v, c, Draw)
  {
  }

  lemma LiftMoves(v: View, mem: Cells, c: Cache, h: Block, count: int)
    requires InOrder(v, mem, c) && See(v, c).hand == [] && See(v, c).cur != [] && h == Top(See(v, c).cur)
    ensures Possible(v, c, Lift) && h in mem && Moves(v, Lifted(v, c), mem[h := mem[h].(count := count)], c)
    ensures See(Lifted(v, c), c) == See(v, c).(cur := [], hand := See(v, c).cur)
    ensures Head(Lifted(v, c), TopCommon(Lifted(v, c))) == Head(v, TopCommon(v))
  {
    hide Represented, Sized, OthersSame, KeepsStacks, TopCommon, TopChunk, Lifted;
    SoundView(v, mem);
    ChunksSeen(v, c);
    TopSize(v, c);
    TopPlaced(v, mem, Cur(c));
    LooseHeadIsFree(v, mem, Cur(c), h, mem[h].(count := count));
    LiftedRepresented(v, mem[h := mem[h].(count := count)], c);
    LiftedSeen(v, c);
    LiftedKeeps(v, c);
    SizedKept(v, Lifted(v, c), c);
    StillThere(v, Lifted(v, c), c);
  }

  lemma OnlyTheLink(cell: Cell, below: Block?)
    ensures HeadWritten(cell, cell.count, below) == cell.(chunkNext := below)
  {
  }

  lemma PushMoves(v: View, mem: Cells, c: Cache, h: Block)
    requires InOrder(v, mem, c) && IsChunk(See(v, c).hand, h, mem)
    ensures Possible(v, c, Push) && Moves(v, Pushed(v, c), mem[h := mem[h].(chunkNext := Head(v, TopCommon(v)))], c)
    ensures See(Pushed(v, c), c) == See(v, c).(hand := [])
    ensures Head(Pushed(v, c), TopCommon(Pushed(v, c))) == h
  {
    hide Represented, Sized, OthersSame, KeepsStacks, TopCommon, TopChunk, Pushed, HeadWritten, Possible, MoveBy;
    SoundView(v, mem);
    ChunksSeen(v, c);
    TopSize(v, c);
    PushedRepresented(v, mem, c, h);
    PushedSeen(v, c);
    PushedKeeps(v, c);
    SizedMore(v, Pushed(v, c), Common(v.common));
    OnlyTheLink(mem[h], Head(v, TopCommon(v)));
    CanPush(v, c);
    StillThere(v, Pushed(v, c), c);
  }

  lemma CanPush(v: View, c: Cache)
    requires Hand(c) in v.lists
    ensures Possible(v, c, Push)
  {
  }

  lemma SealMoves(v: View, mem: Cells, c: Cache, h: Block)
    requires InOrder(v, mem, c) && |See(v, c).cur| == CHUNK_SIZE && h == Top(See(v, c).cur)
    ensures Possible(v, c, Seal) && h in mem
    ensures Moves(v, Sealed(v, c), mem[h := HeadWritten(mem[h], CHUNK_SIZE, See(v, c).chunkTop)], c)
    ensures See(Sealed(v, c), c) == See(v, c).(cur := [], depth := See(v, c).depth + 1, chunkTop := h)
    ensures Head(Sealed(v, c), TopCommon(Sealed(v, c))) == Head(v, TopCommon(v))
  {
    hide Represented, Sized, OthersSame, KeepsStacks, TopCommon, TopChunk, Sealed;
    SoundView(v, mem);
    ChunksSeen(v, c);
    TopSize(v, c);
    SealedRepresented(v, mem, c, h);
    SealedSeen(v, c);
    SealedKeeps(v, c);
    SizedMore(v, Sealed(v, c), Chunk(c, v.depth[c]));
    StillThere(v, Sealed(v, c), c);
  }

  lemma UnlinkMoves(v: View, mem: Cells, c: Cache, b: Block)
    requires InOrder(v, mem, c) && See(v, c).cur != [] && b == Top(See(v, c).cur) && See(v, c).held == []
    ensures Possible(v, c, Unlink) && b in mem && Moves(v, Unlinked(v, c), mem, c)
    ensures mem[b].next == Top(See(v, c).cur[..|See(v, c).cur| - 1])
    ensures See(Unlinked(v, c), c) == See(v, c).(cur := See(v, c).cur[..|See(v, c).cur| - 1], held := [b])
    ensures Head(Unlinked(v, c), TopCommon(Unlinked(v, c))) == Head(v, TopCommon(v))
  {
    hide Represented, Sized, OthersSame, KeepsStacks, TopCommon, TopChunk, Unlinked;
    SoundView(v, mem);
    ChunksSeen(v, c);
    TopSize(v, c);
    TopIsLinked(v, mem, c);
    UnlinkedRepresented(v, mem, c, b);
    assert mem[b := mem[b]] == mem;
    UnlinkedSeen(v, c);
    UnlinkedKeeps(v, c);
    SizedKept(v, Unlinked(v, c), c);
    StillThere(v, Unlinked(v, c), c);
  }

  lemma TopIsLinked(v: View, mem: Cells, c: Cache)
    requires Represented(v, mem) && Cur(c) in v.lists && v.lists[Cur(c)] != []
    ensures Top(v.lists[Cur(c)]) in mem
    ensures mem[Top(v.lists[Cur(c)])].next == Top(v.lists[Cur(c)][..|v.lists[Cur(c)]| - 1])
  {
    hide Placed, Named, Linked, Flagged, Headed;
    TopPlaced(v, mem, Cur(c));
  }

  lemma HeldIsIdle(v: View, mem: Cells, c: Cache, b: Block)
    requires Represented(v, mem) && c in v.depth && See(v, c).held == [b]
    ensures b in mem && mem[b].useFlag == 0 && b in v.where && v.where[b] == At(Held(c), 0)
  {
    hide Placed, Named, Linked, Flagged, Headed;
    TopPlaced(v, mem, Held(c));
    IdleFlag(v, mem, b);
  }

  lemma MarkMoves(v: View, mem: Cells, c: Cache, b: Block)
    requires InOrder(v, mem, c) && See(v, c).held == [b]
    ensures Possible(v, c, Mark) && b in mem && mem[b].useFlag == 0
    ensures Moves(v, Marked(v, c), mem[b := mem[b].(useFlag := 1)], c)
    ensures See(Marked(v, c), c) == See(v, c).(held := [])
    ensures Head(Marked(v, c), TopCommon(Marked(v, c))) == Head(v, TopCommon(v))
  {
    hide Represented, Sized, OthersSame, KeepsStacks, TopCommon, TopChunk, Marked;
    SoundView(v, mem);
    ChunksSeen(v, c);
    TopSize(v, c);
    HeldIsIdle(v, mem, c, b);
    MarkedRepresented(v, mem, c, b);
    MarkedSeen(v, c);
    MarkedKeeps(v, c);
    SizedKept(v, Marked(v, c), c);
    StillThere(v, Marked(v, c), c);
  }

  lemma UnmarkMoves(v: View, mem: Cells, c: Cache, b: Block)
    requires InOrder(v, mem, c) && See(v, c).held == [] && b in v.where && v.where[b] == InUse
    ensures b in mem && Moves(v, Unmarked(v, c, b), mem[b := mem[b].(useFlag := 0)], c)
    ensures See(Unmarked(v, c, b), c) == See(v, c).(held := [b])
    ensures Head(Unmarked(v, c, b), TopCommon(Unmarked(v, c, b))) == Head(v, TopCommon(v))
  {
    hide Represented, Sized, OthersSame, KeepsStacks, TopCommon, TopChunk, Unmarked;
    SoundView(v, mem);
    ChunksSeen(v, c);
    TopSize(v, c);
    UnmarkedRepresented(v, mem, c, b);
    UnmarkedSeen(v, c, b);
    UnmarkedKeeps(v, c, b);
    SizedKept(v, Unmarked(v, c, b), c);
    StillThere(v, Unmarked(v, c, b), c);
  }

  lemma RelinkMoves(v: View, mem: Cells, c: Cache, b: Block)
    requires InOrder(v, mem, c) && See(v, c).held == [b]
    ensures Possible(v, c, Relink) && b in mem
    ensures Moves(v, Relinked(v, c), mem[b := mem[b].(next := Top(See(v, c).cur))], c)
    ensures See(Relinked(v, c), c) == See(v, c).(cur := See(v, c).cur + [b], held := [])
    ensures Head(Relinked(v, c), TopCommon(Relinked(v, c))) == Head(v, TopCommon(v))
  {
    hide Represented, Sized, OthersSame, KeepsStacks, TopCommon, TopChunk, Relinked;
    SoundView(v, mem);
    ChunksSeen(v, c);
    TopSize(v, c);
    RelinkedRepresented(v, mem, c, b);
    RelinkedSeen(v, c);
    RelinkedKeeps(v, c);
    SizedKept(v, Relinked(v, c), c);
    StillThere(v, Relinked(v, c), c);
  }

  lemma GrowMoves(v: View, mem: Cells, mem': Cells, c: Cache, s: seq<Block>)
    requires InOrder(v, mem, c) && See(v, c).hand == [] && s != [] && New(v, s)
    requires Grows(mem, mem', s) && Chained(s, mem')
    ensures Represented(Grown(v, c, s), mem') && Sized(Grown(v, c, s)) && OthersSame(v, Grown(v, c, s), c)
    ensures c in Grown(v, c, s).depth && |Grown(v, c, s).where| == |v.where| + |s|
    ensures See(Grown(v, c, s), c) == See(v, c).(hand := s)
    ensures Head(Grown(v, c, s), TopCommon(Grown(v, c, s))) == Head(v, TopCommon(v))
  {
    hide Represented, Sized, OthersSame, KeepsStacks, TopCommon, TopChunk, Grown, New, Grows, Chained;
    SoundView(v, mem);
    ChunksSeen(v, c);
    GrownRepresented(v, mem, mem', c, s);
    GrownSeen(v, c, s);
    GrownIsExtended(v, c, s);
    GrownKeeps(v, Grown(v, c, s), c, s);
    SizedKept(v, Grown(v, c, s), c);
  }
}
