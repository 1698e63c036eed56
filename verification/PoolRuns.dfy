/** What holds in every run of the memory pool, for any number of threads in the middle of any calls. */
module PoolRuns {
  import opened PoolLayout
  import opened PoolMemory
  import opened PoolMachine
  import opened PoolMoves
  import opened PoolSteps

  ghost predicate Init(s: State) {
    && s.v == Layout(map[], map[], map[], 0) && s.mem == map[] && s.fields == map[] && s.pcs == map[]
    && s.top == null && s.made == 0 && !s.broken
  }

  ghost predicate Legal(s: State, acts: seq<Action>)
    decreases |acts|
  {
    acts == [] || (Enabled(s, acts[0]) && Legal(Apply(s, acts[0]), acts[1..]))
  }

  ghost function Run(s: State, acts: seq<Action>): State
    requires Legal(s, acts)
    decreases |acts|
  {
    if acts == [] then s else Run(Apply(s, acts[0]), acts[1..])
  }

  lemma InitInv(s: State)
    requires Init(s)
    ensures Inv(s)
  {
    assert Builders(s.pcs) == {};
  }

  /** Every run keeps the invariant up to the step that breaks into the debugger, if there is one. */
  lemma {:induction false} RunKeepsInv(s: State, acts: seq<Action>)
    requires Inv(s) && Legal(s, acts)
    ensures !Run(s, acts).broken ==> Inv(Run(s, acts))
    decreases |acts|
  {
    hide Inv, Apply, Enabled, Breaks;
    if acts != [] {
      ApplyKeepsInv(s, acts[0]);
      if Apply(s, acts[0]).broken {
        BrokenStays(Apply(s, acts[0]), acts[1..]);
      } else {
        RunKeepsInv(Apply(s, acts[0]), acts[1..]);
      }
    }
  }

  lemma BrokenStays(s: State, acts: seq<Action>)
    requires s.broken && Legal(s, acts)
    ensures acts == []
  {
    hide Apply;
  }

  /** A run from the empty pool that has not broken. */
  ghost predicate Reached(s0: State, acts: seq<Action>, s: State) {
    Init(s0) && Legal(s0, acts) && Run(s0, acts) == s && !s.broken
  }

  lemma ReachedInv(s0: State, acts: seq<Action>, s: State)
    requires Reached(s0, acts, s)
    ensures Inv(s)
  {
    hide Inv, Init, Legal, Run;
    InitInv(s0);
    RunKeepsInv(s0, acts);
  }

  // ---------------------------------------------------------------- where blocks are

  /** Each block ever created is in use and in no list, or idle and at exactly one place: of a current
      list, a cached chunk, a shared chunk, or in the hand of a thread. */
  lemma OnePlace(s0: State, acts: seq<Action>, s: State, b: Block)
    requires Reached(s0, acts, s) && b in s.v.where
    ensures s.v.where[b] == InUse ==>
              forall n, k :: n in s.v.lists && 0 <= k < |s.v.lists[n]| ==> s.v.lists[n][k] != b
    ensures s.v.where[b] != InUse ==>
              exists n, k :: n in s.v.lists && 0 <= k < |s.v.lists[n]| && s.v.lists[n][k] == b
                && forall m, j :: m in s.v.lists && 0 <= j < |s.v.lists[m]| && s.v.lists[m][j] == b ==> m == n && j == k
  {
    hide Reached, Named, Linked, Flagged, Headed, Sized, ThreadInv, Builders;
    ReachedInv(s0, acts, s);
    if s.v.where[b] != InUse {
      var n, k := s.v.where[b].list, s.v.where[b].k;
      assert s.v.lists[n][k] == b;
    }
  }

  /** Every list there is belongs to a thread of the pool or to its shared stack. */
  lemma ListsAreKnown(s0: State, acts: seq<Action>, s: State, n: Name<Cache>)
    requires Reached(s0, acts, s) && n in s.v.lists
    ensures match n
            case Common(j) => 0 <= j < s.v.common
            case Chunk(c, j) => c in s.pcs && c in s.v.depth && 0 <= j < s.v.depth[c]
            case _ => n.c in s.pcs
  {
    hide Reached, Placed, Linked, Flagged, Headed, Sized, ThreadInv, Builders;
    ReachedInv(s0, acts, s);
    assert Exists(s.v, n);
  }

  /** `useFlag` is 1 exactly while a block is in use. */
  lemma FlagIsExact(s0: State, acts: seq<Action>, s: State, b: Block)
    requires Reached(s0, acts, s) && b in s.mem
    ensures s.mem[b].useFlag == if b in Used(s.v) then 1 else 0
  {
    hide Reached, Sized, ThreadInv, Builders, Placed, Named, Linked, Flagged, Headed;
    ReachedInv(s0, acts, s);
    IdleFlag(s.v, s.mem, b);
  }

  /** The fields of a cache are the head and the length of its current list and of its stack. */
  lemma FieldsAreExact(s0: State, acts: seq<Action>, s: State, c: Cache)
    requires Reached(s0, acts, s) && c in s.pcs
    ensures c in s.v.depth && c in s.fields && FieldsFit(See(s.v, c), s.fields[c])
  {
    hide Reached, Represented, Sized, Builders, FieldsFit, PcFits, See;
    ReachedInv(s0, acts, s);
    assert ThreadInv(s, c);
  }

  /** The head of every stacked chunk has the length of its chunk and the chunk below. */
  lemma HeadsAreExact(s0: State, acts: seq<Action>, s: State, n: Name<Cache>)
    requires Reached(s0, acts, s) && n in s.v.lists && Stacked(n)
    ensures Head(s.v, n) in s.mem
    ensures s.mem[Head(s.v, n)].count == |s.v.lists[n]| <= CHUNK_SIZE
    ensures s.mem[Head(s.v, n)].chunkNext == Head(s.v, Below(n))
  {
    hide Reached, ThreadInv, Builders, Placed, Named, Linked, Flagged, Headed;
    ReachedInv(s0, acts, s);
    StackHead(s.v, s.mem, n);
  }

  /** The blocks of a list are linked from its head down to null. */
  lemma LinksAreExact(s0: State, acts: seq<Action>, s: State, n: Name<Cache>, k: nat)
    requires Reached(s0, acts, s) && n in s.v.lists && !n.Held? && k < |s.v.lists[n]|
    ensures var b := s.v.lists[n][k]; b in s.mem && s.mem[b].next == if k == 0 then null else s.v.lists[n][k - 1]
  {
    hide Reached, ThreadInv, Builders, Named, Flagged, Headed, Sized;
    ReachedInv(s0, acts, s);
    assert s.v.lists[n][k] in s.v.where;
  }

  // ---------------------------------------------------------------- bounds

  /** The idle blocks of a thread: current list, cached chunks below `j`, and what is in its hand. */
  function IdleBelow(v: View, c: Cache, j: nat): nat {
    if j == 0 then |ListAt(v, Cur(c))| + |ListAt(v, Hand(c))| + |ListAt(v, Held(c))|
    else IdleBelow(v, c, j - 1) + |ListAt(v, Chunk(c, j - 1))|
  }

  lemma {:induction false} IdleInChunks(v: View, c: Cache, j: nat)
    requires Sized(v)
    ensures IdleBelow(v, c, j) <= IdleBelow(v, c, 0) + j * CHUNK_SIZE
  {
    if j > 0 {
      IdleInChunks(v, c, j - 1);
    }
  }

  lemma IdleInHand(s: State, c: Cache)
    requires ThreadInv(s, c)
    ensures s.v.depth[c] <= TLS_MAX_CHUNKS + 1
    ensures s.pcs[c] == Ready ==> IdleBelow(s.v, c, 0) <= 299 && s.v.depth[c] <= TLS_MAX_CHUNKS
    ensures IdleBelow(s.v, c, 0) + CHUNK_SIZE * s.v.depth[c] <= 3599
  {
    hide Head, Top, TopChunk;
  }

  /** Between calls a thread keeps at most 3299 idle blocks, and inside a call at most 3599. */
  lemma IdleBound(s0: State, acts: seq<Action>, s: State, c: Cache)
    requires Reached(s0, acts, s) && c in s.pcs
    ensures c in s.v.depth
    ensures s.pcs[c] == Ready ==> IdleBelow(s.v, c, s.v.depth[c]) <= 3299
    ensures IdleBelow(s.v, c, s.v.depth[c]) <= 3599
  {
    hide Reached, Represented, Builders, IdleBelow, ThreadInv;
    ReachedInv(s0, acts, s);
    assert ThreadInv(s, c);
    IsThere(s, c);
    IdleInHand(s, c);
    IdleInChunks(s.v, c, s.v.depth[c]);
  }

  lemma IsThere(s: State, c: Cache)
    requires ThreadInv(s, c)
    ensures c in s.v.depth
  {
  }

  /** `m_chunkCount` counts the chunks that exist and those that threads are building. */
  lemma CapacityIsExact(s0: State, acts: seq<Action>, s: State)
    requires Reached(s0, acts, s)
    ensures |s.mem| + CHUNK_SIZE * |Builders(s.pcs)| == CHUNK_SIZE * s.made
  {
    hide Reached, ThreadInv, Builders, Sized, Placed, Named, Linked, Flagged, Headed;
    ReachedInv(s0, acts, s);
    SameSize(s.mem, s.v.where);
  }

  // ---------------------------------------------------------------- calls

  ghost function Used(v: View): set<Block> {
    set b | b in v.where && v.where[b] == InUse
  }

  /** A step breaks exactly if it frees a block that is not in use, counts a chunk beyond the limit, or
      gets no memory for one. */
  lemma BreaksExactly(s0: State, acts: seq<Action>, s: State, a: Action)
    requires Reached(s0, acts, s) && Enabled(s, a)
    ensures Apply(s, a).broken <==>
            match a
            case Free(_, b) => b !in Used(s.v)
            case Continue(c, new', _) =>
              (s.pcs[c].Counting? && s.limit != 0 && s.made >= s.limit) || (s.pcs[c].Building? && new' == [])
            case _ => false
  {
    hide Reached, Apply, Fresh;
    ReachedInv(s0, acts, s);
    MemoryIsKnown(s);
    hide Inv;
    ApplyKeepsInv(s, a);
  }

  lemma MemoryIsKnown(s: State)
    requires Inv(s)
    ensures s.mem.Keys == s.v.where.Keys
  {
    hide ThreadInv, Builders, Sized, Placed, Named, Linked, Flagged, Headed;
  }

  // ---------------------------------------------------------------- who gets blocks

  lemma MovedUsed(v: View, a: Name<Cache>, b: Name<Cache>)
    requires a in v.lists
    ensures Used(Moved(v, a, b)) == Used(v)
  {
  }

  lemma {:induction false} ExtendedUsed(v: View, n: Name<Cache>, s: seq<Block>)
    requires n in v.lists && New(v, s)
    ensures Used(Extended(v, n, s)) == Used(v)
  {
    if s != [] {
      NewLast(v, s);
      ExtendedUsed(v, n, s[..|s| - 1]);
      ExtendedKeys(v, n, s[..|s| - 1]);
    }
  }

  /** Whole lists move without a change of status. */
  lemma ListMovesKeepUsed(v: View, c: Cache, m: Move)
    requires m.Stay? || m.Seal? || m.Unseal? || m.Pop? || m.Install? || m.Draw? || m.Lift? || m.Push?
    ensures Used(MoveBy(v, c, m)) == Used(v)
  {
    if Possible(v, c, m) {
      match m
      case Stay =>
      case Seal => MovedUsed(v, Cur(c), Chunk(c, v.depth[c]));
      case Unseal => MovedUsed(v, TopChunk(v, c), Cur(c));
      case Pop => MovedUsed(v, TopCommon(v), Hand(c));
      case Install => MovedUsed(v, Hand(c), Cur(c));
      case Draw => MovedUsed(v, TopChunk(v, c), Hand(c));
      case Lift => MovedUsed(v, Cur(c), Hand(c));
      case Push => MovedUsed(v, Hand(c), Common(v.common));
    }
  }

  lemma UnlinkUsed(v: View, c: Cache)
    requires Placed(v) && Cur(c) in v.lists && v.lists[Cur(c)] != []
    ensures Used(Unlinked(v, c)) == Used(v)
  {
    assert v.where[TopOf(v, Cur(c))] == At(Cur(c), |v.lists[Cur(c)]| - 1);
  }

  lemma RelinkUsed(v: View, c: Cache)
    requires Placed(v) && Held(c) in v.lists && |v.lists[Held(c)]| == 1 && Cur(c) in v.lists
    ensures Used(Relinked(v, c)) == Used(v)
  {
    assert v.where[TopOf(v, Held(c))] == At(Held(c), 0);
  }

  lemma MarkUsed(v: View, c: Cache, b: Block)
    requires Placed(v) && Held(c) in v.lists && v.lists[Held(c)] == [b]
    ensures b !in Used(v) && Used(Marked(v, c)) == Used(v) + {b}
  {
    assert v.where[v.lists[Held(c)][0]] == At(Held(c), 0);
  }

  lemma UnmarkUsed(v: View, c: Cache, b: Block)
    ensures Used(Unmarked(v, c, b)) == Used(v) - {b}
  {
  }

  lemma LeftUsed(v: View, c: Cache)
    ensures Used(Left(v, c)) == Used(v) == Used(Joined(v, c))
  {
  }

  /** The block whose status a step changes, if it does: at the end of `Alloc` and the start of `Free`. */
  ghost function Status(s: State, a: Action): set<Block>
    requires Enabled(s, a)
  {
    match a
    case Free(_, b) => Used(s.v) - {b}
    case Continue(c, _, _) => if s.pcs[c].Taking? then Used(s.v) + {s.pcs[c].b} else Used(s.v)
    case _ => Used(s.v)
  }

  lemma HeldList(s: State, c: Cache)
    requires Inv(s) && c in s.v.depth && c in s.pcs && (s.pcs[c].Taking? || s.pcs[c].Giving?)
    ensures Placed(s.v) && Cur(c) in s.v.lists && Held(c) in s.v.lists && s.v.lists[Held(c)] == [s.pcs[c].b]
  {
    hide Sized, Builders, Linked, Flagged, Headed, Placed;
    assert ThreadInv(s, c);
    ChunksSeen(s.v, c);
  }

  lemma CurList(s: State, c: Cache)
    requires Inv(s) && c in s.v.depth && c in s.pcs && s.pcs[c].Loaded?
    ensures Placed(s.v) && Cur(c) in s.v.lists && s.v.lists[Cur(c)] != []
  {
    hide Sized, Builders, Linked, Flagged, Headed, Placed;
    assert ThreadInv(s, c);
    ChunksSeen(s.v, c);
  }

  lemma ListStepsKeepUsed(s: State, c: Cache, new': seq<Block>, cells: Cells)
    requires Known(s, c) && (s.pcs[c].Building? && new' != [] ==> Fresh(s, new', cells))
    requires !s.pcs[c].Loaded? && !s.pcs[c].Taking? && !s.pcs[c].Giving?
    ensures Used(Step(s, c, new', cells).v) == Used(s.v)
  {
    hide Used, MoveBy, Chained, New, Step;
    if s.pcs[c].Sealing? || s.pcs[c].Trimming? || s.pcs[c].Pushing? || s.pcs[c].LeavingPush? {
      FreeingKeepsUsed(s, c, new', cells);
    } else if s.pcs[c].Building? && new' != [] {
      GrowUsed(s.v, c, new');
      BuildMoves(s, c, new', cells);
    } else if s.pcs[c].Leaving? {
      LeaveKeepsUsed(s, c);
      LeaveMoves(s, c, new', cells);
    } else {
      AllocKeepsUsed(s, c, new', cells);
    }
  }

  lemma BuildMoves(s: State, c: Cache, new': seq<Block>, cells: Cells)
    requires Known(s, c) && s.pcs[c].Building? && new' != []
    ensures Step(s, c, new', cells).v == MoveBy(s.v, c, Grow(new'))
  {
    hide MoveBy;
  }

  lemma LeaveMoves(s: State, c: Cache, new': seq<Block>, cells: Cells)
    requires Known(s, c) && s.pcs[c].Leaving?
    ensures Step(s, c, new', cells) == LeaveStep(s, c)
  {
  }

  lemma AllocKeepsUsed(s: State, c: Cache, new': seq<Block>, cells: Cells)
    requires Known(s, c) && (s.pcs[c].Building? ==> new' == [])
    requires s.pcs[c].Ready? || s.pcs[c].Refilling? || s.pcs[c].Popping? || s.pcs[c].Counting? || s.pcs[c].Building?
      || s.pcs[c].Carrying?
    ensures Used(Step(s, c, new', cells).v) == Used(s.v)
  {
    hide Used, MoveBy, BuildStep, UnlinkStep, TakeStep, GiveStep, SealStep, DrawStep, PushStep, LeaveStep;
    ListMovesKeepUsed(s.v, c, Stay);
    ListMovesKeepUsed(s.v, c, Unseal);
    ListMovesKeepUsed(s.v, c, Pop);
    ListMovesKeepUsed(s.v, c, Install);
  }

  lemma FreeingKeepsUsed(s: State, c: Cache, new': seq<Block>, cells: Cells)
    requires Known(s, c)
    requires s.pcs[c].Sealing? || s.pcs[c].Trimming? || s.pcs[c].Pushing? || s.pcs[c].LeavingPush?
    ensures Used(Step(s, c, new', cells).v) == Used(s.v)
  {
    hide Used, MoveBy, RefillStep, PopStep, CountStep, BuildStep, InstallStep, UnlinkStep, TakeStep, GiveStep,
      LeaveStep;
    ListMovesKeepUsed(s.v, c, Seal);
    ListMovesKeepUsed(s.v, c, Draw);
    ListMovesKeepUsed(s.v, c, Push);
  }

  lemma LeaveKeepsUsed(s: State, c: Cache)
    requires Known(s, c)
    ensures Used(LeaveStep(s, c).v) == Used(s.v)
  {
    hide Used, MoveBy;
    ListMovesKeepUsed(s.v, c, Lift);
    ListMovesKeepUsed(s.v, c, Draw);
    LeftUsed(s.v, c);
  }

  lemma GrowUsed(v: View, c: Cache, s: seq<Block>)
    requires New(v, s)
    ensures Used(MoveBy(v, c, Grow(s))) == Used(v)
  {
    var e := v.(lists := v.lists[Hand(c) := []]);
    NewAnyway(v, e, s);
    ExtendedUsed(e, Hand(c), s);
  }

  lemma BlockStepsMove(s: State, c: Cache, new': seq<Block>, cells: Cells)
    requires Known(s, c) && !Step(s, c, new', cells).broken
    ensures s.pcs[c].Loaded? ==> Step(s, c, new', cells).v == MoveBy(s.v, c, Unlink)
    ensures s.pcs[c].Taking? ==> Step(s, c, new', cells).v == MoveBy(s.v, c, Mark)
    ensures s.pcs[c].Giving? ==> Step(s, c, new', cells).v == MoveBy(s.v, c, Relink)
  {
    hide MoveBy, Fresh;
  }

  lemma ContinueStatus(s: State, c: Cache, new': seq<Block>, cells: Cells)
    requires Inv(s) && Known(s, c) && (s.pcs[c].Building? && new' != [] ==> Fresh(s, new', cells))
    requires !Step(s, c, new', cells).broken && !s.broken
    ensures Used(Step(s, c, new', cells).v) == if s.pcs[c].Taking? then Used(s.v) + {s.pcs[c].b} else Used(s.v)
    ensures s.pcs[c].Taking? ==> s.pcs[c].b !in Used(s.v)
  {
    hide Inv, Used, Fresh, Placed, Unlinked, Relinked, Marked, Step;
    KnownIsIn(s, c);
    BlockStepsMove(s, c, new', cells);
    if s.pcs[c].Loaded? {
      CurList(s, c);
      UnlinkUsed(s.v, c);
    } else if s.pcs[c].Taking? {
      HeldList(s, c);
      MarkUsed(s.v, c, s.pcs[c].b);
    } else if s.pcs[c].Giving? {
      HeldList(s, c);
      RelinkUsed(s.v, c);
    } else {
      ListStepsKeepUsed(s, c, new', cells);
    }
  }

  /** `Alloc` hands out a block that nobody had, at its last step; `Free` takes back the one it is given,
      at its first; no other step changes the status of any block. */
  lemma StatusChanges(s0: State, acts: seq<Action>, s: State, a: Action)
    requires Reached(s0, acts, s) && Enabled(s, a) && !Apply(s, a).broken
    ensures Used(Apply(s, a).v) == Status(s, a)
    ensures a.Continue? && s.pcs[a.c].Taking? ==> s.pcs[a.c].b !in Used(s.v)
  {
    hide Reached, Used, Inv, Step, Fresh;
    ReachedInv(s0, acts, s);
    match a
    case Start(c) => LeftUsed(s.v, c);
    case Alloc(_) =>
    case Free(c, b) => UnmarkUsed(s.v, c, b);
    case Exit(_) =>
    case Prepare(_, _) =>
    case Stock(_) =>
    case Continue(c, new', cells) => ContinueStatus(s, c, new', cells);
  }
}
