/** Every step of the memory pool keeps its invariant, unless it breaks into the debugger. */
module PoolSteps {
  import opened PoolLayout
  import opened PoolMemory
  import opened PoolMachine
  import opened PoolMoves

  // ---------------------------------------------------------------- the other threads

  /** The blocks whose counts the threads other than `c` rely on keep them. */
  ghost predicate CountsKept(s: State, mem': Cells, c: Cache) {
    forall b :: b in s.mem ==>
      b in mem' && (mem'[b].count == s.mem[b].count || (c in s.v.depth && b == Top(See(s.v, c).cur)))
  }

  /** The head of one list is in no other list. */
  lemma HandIsNotCur(v: View, c: Cache, d: Cache)
    requires Sound(v) && c in v.depth && d in v.depth
    requires See(v, d).hand != []
    ensures Top(See(v, d).hand) != Top(See(v, c).cur)
  {
    ChunksSeen(v, d);
    HeadsDiffer(v, Hand(d));
    hide Placed, Named;
  }

  predicate SameThread(s: State, s': State, d: Cache) {
    Known(s, d) && Known(s', d) && s'.fields[d] == s.fields[d] && s'.pcs[d] == s.pcs[d]
  }

  /** A step of `c` leaves what the other threads rely on alone. */
  lemma OthersKeep(s: State, s': State, c: Cache)
    requires Sound(s.v) && (forall d :: d in s.v.depth ==> ThreadInv(s, d))
    requires OthersSame(s.v, s'.v, c) && CountsKept(s, s'.mem, c)
    requires forall d :: d in s.v.depth && d != c ==> SameThread(s, s', d)
    ensures forall d :: d in s.v.depth && d != c ==> ThreadInv(s', d)
  {
    hide Sound, See, OthersSame;
    forall d | d in s.v.depth && d != c ensures ThreadInv(s', d) {
      OneKeeps(s, s', c, d);
    }
  }

  lemma OneKeeps(s: State, s': State, c: Cache, d: Cache)
    requires Sound(s.v) && d in s.v.depth && d != c && ThreadInv(s, d)
    requires OthersSame(s.v, s'.v, c) && CountsKept(s, s'.mem, c)
    requires SameThread(s, s', d)
    ensures ThreadInv(s', d)
  {
    hide Sound, See;
    assert See(s'.v, d) == See(s.v, d);
    if See(s.v, d).hand != [] && c in s.v.depth {
      HandIsNotCur(s.v, c, d);
    }
  }

  lemma BuildersMove(pcs: map<Cache, Pc>, c: Cache, pc: Pc)
    requires c in pcs
    ensures |Builders(pcs[c := pc])| ==
            |Builders(pcs)| - (if pcs[c].Building? then 1 else 0) + (if pc.Building? then 1 else 0)
  {
    var b, b' := Builders(pcs), Builders(pcs[c := pc]);
    if pcs[c].Building? && !pc.Building? {
      assert b' == b - {c};
    } else if !pcs[c].Building? && pc.Building? {
      assert b' == b + {c};
    } else {
      assert b' == b;
    }
  }

  /** All that is to show of a step of `c` that changes its own fields, lists and place. */
  lemma StepKeeps(s: State, s': State, c: Cache)
    requires Inv(s) && c in s.v.depth && c in s'.v.depth
    requires Represented(s'.v, s'.mem) && Sized(s'.v) && s'.top == Head(s'.v, TopCommon(s'.v))
    requires OthersSame(s.v, s'.v, c) && CountsKept(s, s'.mem, c)
    requires c in s'.fields && c in s'.pcs && s'.fields == s.fields[c := s'.fields[c]]
    requires s'.pcs == s.pcs[c := s'.pcs[c]]
    requires FieldsFit(See(s'.v, c), s'.fields[c]) && PcFits(See(s'.v, c), s'.pcs[c], s'.mem)
    requires |s'.v.where| - |s.v.where| == CHUNK_SIZE * (s'.made - s.made)
               + CHUNK_SIZE * ((if s.pcs[c].Building? then 1 else 0) - (if s'.pcs[c].Building? then 1 else 0))
    ensures Inv(s')
  {
    hide Represented, Sized, PcFits, FieldsFit, CountsKept, OthersSame, See, TopCommon, Head, Builders;
    SameThreads(s, s', c);
    SoundView(s.v, s.mem);
    OthersKeep(s, s', c);
    BuildersMove(s.pcs, c, s'.pcs[c]);
  }

  lemma SameThreads(s: State, s': State, c: Cache)
    requires OthersSame(s.v, s'.v, c) && s.pcs.Keys == s.v.depth.Keys && c in s.v.depth
    requires s'.pcs.Keys == s.pcs.Keys + {c}
    ensures s'.v.depth.Keys == s.v.depth.Keys == s'.pcs.Keys
  {
  }

  lemma SameView(s: State, c: Cache)
    ensures OthersSame(s.v, s.v, c) && CountsKept(s, s.mem, c)
  {
  }

  /** A step that moves blocks and takes none from the system. */
  lemma MoveKeeps(s: State, s': State, c: Cache)
    requires Inv(s) && c in s.v.depth && Moves(s.v, s'.v, s'.mem, c) && s'.top == Head(s'.v, TopCommon(s'.v))
    requires CountsKept(s, s'.mem, c)
    requires c in s'.fields && c in s'.pcs && s'.fields == s.fields[c := s'.fields[c]]
    requires s'.pcs == s.pcs[c := s'.pcs[c]]
    requires FieldsFit(See(s'.v, c), s'.fields[c]) && PcFits(See(s'.v, c), s'.pcs[c], s'.mem)
    requires !s.pcs[c].Building? && !s'.pcs[c].Building? && s'.made == s.made
    ensures Inv(s')
  {
    hide Represented, Sized, PcFits, FieldsFit, CountsKept, OthersSame, See, TopCommon, Head, Builders;
    StepKeeps(s, s', c);
  }

  // ---------------------------------------------------------------- step by step

  /** The step of a thread that neither moves blocks nor writes memory. */
  lemma StayKeeps(s: State, c: Cache, pc: Pc, made: nat)
    requires Inv(s) && c in s.v.depth && !s.pcs[c].Building?
    requires PcFits(See(s.v, c), pc, s.mem) && made == s.made + if pc.Building? then 1 else 0
    ensures Inv(Went(s, c, s.fields[c], Stay, pc).(made := made))
  {
    hide Represented, Sized, PcFits, FieldsFit, CountsKept, OthersSame, See, TopCommon, Head, Builders;
    SameView(s, c);
    StepKeeps(s, Went(s, c, s.fields[c], Stay, pc).(made := made), c);
  }

  lemma ThreadOf(s: State, c: Cache)
    requires Inv(s) && c in s.v.depth
    ensures InOrder(s.v, s.mem, c) && Known(s, c)
    ensures FieldsFit(See(s.v, c), s.fields[c]) && PcFits(See(s.v, c), s.pcs[c], s.mem)
    ensures s.top == Head(s.v, TopCommon(s.v))
  {
    hide Represented, Sized, PcFits, FieldsFit, See, TopCommon, Head, Builders;
    assert ThreadInv(s, c);
  }

  lemma RefillKeeps(s: State, c: Cache)
    requires Inv(s) && c in s.v.depth && c in s.pcs && s.pcs[c] == Refilling
    ensures Inv(RefillStep(s, c)) && RefillStep(s, c).broken == s.broken
  {
    hide Represented, Sized, OthersSame, CountsKept, TopCommon, Head, See, Builders, Moves, InOrder, Inv, Unsealed;
    ThreadOf(s, c);
    if s.fields[c].cur != null {
      StayKeeps(s, c, Loaded, s.made);
      assert RefillStep(s, c) == Went(s, c, s.fields[c], Stay, Loaded).(made := s.made);
    } else if s.fields[c].chunkTop == null {
      NoChunks(s.v, s.mem, c);
      StayKeeps(s, c, Popping, s.made);
      assert RefillStep(s, c) == Went(s, c, s.fields[c], Stay, Popping).(made := s.made);
    } else {
      var x := UnsealMoves(s.v, s.mem, c);
      SameView(s, c);
      MoveKeeps(s, RefillStep(s, c), c);
    }
  }

  lemma NoChunks(v: View, mem: Cells, c: Cache)
    requires InOrder(v, mem, c) && See(v, c).chunkTop == null
    ensures See(v, c).depth == 0
  {
    hide Sized;
    ChunksSeen(v, c);
  }

  lemma PopKeeps(s: State, c: Cache)
    requires Inv(s) && c in s.v.depth && c in s.pcs && s.pcs[c] == Popping
    ensures Inv(PopStep(s, c)) && PopStep(s, c).broken == s.broken
  {
    hide Represented, Sized, OthersSame, CountsKept, TopCommon, Head, See, Builders, Moves, InOrder, Inv, Popped;
    ThreadOf(s, c);
    if s.top == null {
      StayKeeps(s, c, Counting(false), s.made);
      assert PopStep(s, c) == Went(s, c, s.fields[c], Stay, Counting(false)).(made := s.made);
    } else {
      var x := PopMoves(s.v, s.mem, c);
      SameView(s, c);
      MoveKeeps(s, PopStep(s, c), c);
    }
  }

  lemma CountKeeps(s: State, c: Cache, stock: bool)
    requires Inv(s) && c in s.v.depth && c in s.pcs && s.pcs[c] == Counting(stock)
    ensures s.limit != 0 && s.made >= s.limit ==> CountStep(s, c, stock).broken
    ensures !(s.limit != 0 && s.made >= s.limit) ==>
            Inv(CountStep(s, c, stock)) && CountStep(s, c, stock).broken == s.broken
  {
    hide Represented, Sized, OthersSame, CountsKept, TopCommon, Head, See, Builders, Moves, InOrder, Inv;
    ThreadOf(s, c);
    if !(s.limit != 0 && s.made + 1 > s.limit) {
      StayKeeps(s, c, Building(stock), s.made + 1);
      assert CountStep(s, c, stock) == Went(s, c, s.fields[c], Stay, Building(stock)).(made := s.made + 1);
    }
  }

  lemma FreshGrows(s: State, new': seq<Block>, cells: Cells)
    requires Represented(s.v, s.mem) && Fresh(s, new', cells)
    ensures Grows(s.mem, s.mem + cells, new') && Chained(new', s.mem + cells) && New(s.v, new') && |new'| == CHUNK_SIZE
    ensures IsChunk(new', Top(new'), s.mem + cells)
  {
    hide Placed, Named, Linked, Flagged, Headed;
    assert new'[|new'| - 1] in Elements(new');
  }

  lemma GrowsCounts(s: State, mem': Cells, new': seq<Block>, c: Cache)
    requires Grows(s.mem, mem', new')
    ensures CountsKept(s, mem', c)
  {
  }

  lemma BuildShape(s: State, c: Cache, stock: bool, new': seq<Block>, cells: Cells)
    requires Known(s, c) && new' != []
    ensures BuildStep(s, c, stock, new', cells)
            == s.(v := Grown(s.v, c, new'), mem := s.mem + cells, pcs := s.pcs[c := Onward(stock, new'[|new'| - 1])])
  {
    hide Grown;
    assert s.fields[c := s.fields[c]] == s.fields;
  }

  lemma BuildKeeps(s: State, c: Cache, stock: bool, new': seq<Block>, cells: Cells)
    requires Inv(s) && c in s.v.depth && c in s.pcs && s.pcs[c] == Building(stock) && Fresh(s, new', cells)
    ensures new' != [] && Inv(BuildStep(s, c, stock, new', cells))
    ensures BuildStep(s, c, stock, new', cells).broken == s.broken
  {
    hide Represented, Sized, OthersSame, CountsKept, TopCommon, Head, See, Builders, InOrder, Inv, Grown, Grows,
      Chained, New, Fresh, IsChunk, HandFits, BuildStep, PcFits, FieldsFit, Onward;
    ThreadOf(s, c);
    ReprOf(s);
    FreshGrows(s, new', cells);
    BuilderFits(See(s.v, c), s.pcs[c], s.mem, s.fields[c], new');
    GrowMoves(s.v, s.mem, s.mem + cells, c, new');
    GrowsCounts(s, s.mem + cells, new', c);
    ChunkFitsHand(See(s.v, c), stock, new', s.mem + cells);
    BuildShape(s, c, stock, new', cells);
    StepKeeps(s, BuildStep(s, c, stock, new', cells), c);
  }

  lemma ChunkFitsHand(see: Seen, stock: bool, x: seq<Block>, mem: Cells)
    requires IsChunk(x, Top(x), mem) && see.held == [] && see.cur == [] && see.depth == 0
    ensures x != [] && PcFits(see.(hand := x), Onward(stock, x[|x| - 1]), mem) && !Onward(stock, x[|x| - 1]).Building?
  {
  }

  lemma BuilderFits(see: Seen, pc: Pc, mem: Cells, f: Fields, x: seq<Block>)
    requires pc.Building? && PcFits(see, pc, mem) && FieldsFit(see, f)
    ensures see.cur == [] && see.depth == 0 && EmptyHands(see) && FieldsFit(see.(hand := x), f)
  {
  }

  lemma ReprOf(s: State)
    requires Inv(s)
    ensures Represented(s.v, s.mem)
  {
  }

  lemma InstallKeeps(s: State, c: Cache, head: Block)
    requires Inv(s) && c in s.v.depth && c in s.pcs && s.pcs[c] == Carrying(head)
    ensures Inv(InstallStep(s, c, head)) && InstallStep(s, c, head).broken == s.broken
  {
    hide Represented, Sized, OthersSame, CountsKept, TopCommon, Head, See, Builders, Moves, InOrder, Inv, Installed;
    ThreadOf(s, c);
    InstallMoves(s.v, s.mem, c);
    SameView(s, c);
    MoveKeeps(s, InstallStep(s, c, head), c);
  }

  lemma UnlinkKeeps(s: State, c: Cache)
    requires Inv(s) && c in s.v.depth && c in s.pcs && s.pcs[c] == Loaded
    ensures Inv(UnlinkStep(s, c)) && UnlinkStep(s, c).broken == s.broken
  {
    hide Represented, Sized, OthersSame, CountsKept, TopCommon, Head, See, Builders, Moves, InOrder, Inv, Unlinked;
    ThreadOf(s, c);
    UnlinkMoves(s.v, s.mem, c, s.fields[c].cur);
    SameView(s, c);
    MoveKeeps(s, UnlinkStep(s, c), c);
  }

  /** A write that does not touch a count. */
  lemma SameCounts(s: State, c: Cache, b: Block, cell: Cell)
    requires b in s.mem && cell.count == s.mem[b].count
    ensures CountsKept(s, s.mem[b := cell], c)
  {
  }

  lemma OwnCounts(s: State, c: Cache, b: Block, cell: Cell)
    requires b in s.mem && c in s.v.depth && b == Top(See(s.v, c).cur)
    ensures CountsKept(s, s.mem[b := cell], c)
  {
  }

  lemma TakeKeeps(s: State, c: Cache, b: Block)
    requires Inv(s) && c in s.v.depth && c in s.pcs && s.pcs[c] == Taking(b)
    ensures Inv(TakeStep(s, c, b)) && TakeStep(s, c, b).broken == s.broken
  {
    hide Represented, Sized, OthersSame, CountsKept, TopCommon, Head, See, Builders, Moves, InOrder, Inv, Marked;
    ThreadOf(s, c);
    MarkMoves(s.v, s.mem, c, b);
    SameCounts(s, c, b, s.mem[b].(useFlag := 1));
    MoveKeeps(s, TakeStep(s, c, b), c);
  }

  lemma FreeKeeps(s: State, c: Cache, b: Block)
    requires Inv(s) && c in s.v.depth && c in s.pcs && s.pcs[c] == Ready && b in s.mem
    ensures b in s.v.where
    ensures s.v.where[b] != InUse ==> FreeStep(s, c, b).broken
    ensures s.v.where[b] == InUse ==> Inv(FreeStep(s, c, b)) && FreeStep(s, c, b).broken == s.broken
  {
    hide Represented, Sized, OthersSame, CountsKept, TopCommon, Head, See, Builders, Moves, InOrder, Inv, Unmarked;
    ThreadOf(s, c);
    FlagTells(s, b);
    if s.v.where[b] == InUse {
      UnmarkMoves(s.v, s.mem, c, b);
      SameCounts(s, c, b, s.mem[b].(useFlag := 0));
      MoveKeeps(s, FreeStep(s, c, b), c);
    }
  }

  lemma FlagTells(s: State, b: Block)
    requires Inv(s) && b in s.mem
    ensures b in s.v.where && (s.mem[b].useFlag == 1 <==> s.v.where[b] == InUse)
  {
    hide Sized, Placed, Named, Linked, Flagged, Headed, Builders, ThreadInv;
    IdleFlag(s.v, s.mem, b);
  }

  lemma GiveKeeps(s: State, c: Cache, b: Block)
    requires Inv(s) && c in s.v.depth && c in s.pcs && s.pcs[c] == Giving(b)
    ensures Inv(GiveStep(s, c, b)) && GiveStep(s, c, b).broken == s.broken
  {
    hide Represented, Sized, OthersSame, CountsKept, TopCommon, Head, See, Builders, Moves, InOrder, Inv, Relinked;
    ThreadOf(s, c);
    RelinkMoves(s.v, s.mem, c, b);
    SameCounts(s, c, b, s.mem[b].(next := s.fields[c].cur));
    MoveKeeps(s, GiveStep(s, c, b), c);
  }

  lemma SealKeeps(s: State, c: Cache)
    requires Inv(s) && c in s.v.depth && c in s.pcs && s.pcs[c] == Sealing
    ensures Inv(SealStep(s, c)) && SealStep(s, c).broken == s.broken
  {
    hide Represented, Sized, OthersSame, CountsKept, TopCommon, Head, See, Builders, Moves, InOrder, Inv, Sealed;
    ThreadOf(s, c);
    var h := s.fields[c].cur;
    SealMoves(s.v, s.mem, c, h);
    OwnCounts(s, c, h, HeadWritten(s.mem[h], CHUNK_SIZE, s.fields[c].chunkTop));
    MoveKeeps(s, SealStep(s, c), c);
  }

  lemma DrawKeeps(s: State, c: Cache, leaving: bool)
    requires Inv(s) && c in s.v.depth && c in s.pcs && s.pcs[c] == (if leaving then Leaving else Trimming)
    requires c in s.fields && s.fields[c].chunkTop != null && s.fields[c].cur == null
    ensures Inv(DrawStep(s, c, leaving)) && DrawStep(s, c, leaving).broken == s.broken
  {
    hide Represented, Sized, OthersSame, CountsKept, TopCommon, Head, See, Builders, Moves, InOrder, Inv, Drawn;
    ThreadOf(s, c);
    var x := DrawMoves(s.v, s.mem, c);
    SameView(s, c);
    MoveKeeps(s, DrawStep(s, c, leaving), c);
  }

  lemma PushKeeps(s: State, c: Cache, head: Block, next: Pc)
    requires Inv(s) && c in s.v.depth && c in s.pcs && (s.pcs[c] == Pushing(head) || s.pcs[c] == LeavingPush(head))
    requires next == Ready || next == Leaving
    ensures Inv(PushStep(s, c, head, next)) && PushStep(s, c, head, next).broken == s.broken
  {
    hide Represented, Sized, OthersSame, CountsKept, TopCommon, Head, See, Builders, Moves, InOrder, Inv, Pushed;
    ThreadOf(s, c);
    PushMoves(s.v, s.mem, c, head);
    SameCounts(s, c, head, s.mem[head].(chunkNext := s.top));
    MoveKeeps(s, PushStep(s, c, head, next), c);
  }

  lemma HasChunks(s: State, c: Cache)
    requires Inv(s) && c in s.v.depth && c in s.fields
    ensures s.fields[c].chunkTop != null <==> See(s.v, c).depth > 0
    ensures s.v.depth[c] == See(s.v, c).depth
  {
    hide Sized, Builders, Placed, Linked, Flagged, Headed;
    assert ThreadInv(s, c);
    ChunksSeen(s.v, c);
  }

  lemma LiftKeeps(s: State, c: Cache)
    requires Inv(s) && c in s.v.depth && c in s.pcs && s.pcs[c] == Leaving && c in s.fields && s.fields[c].cur != null
    ensures Inv(LeaveStep(s, c)) && LeaveStep(s, c).broken == s.broken
  {
    hide Represented, Sized, OthersSame, CountsKept, TopCommon, Head, See, Builders, Moves, InOrder, Inv, Lifted;
    ThreadOf(s, c);
    var h := s.fields[c].cur;
    LiftMoves(s.v, s.mem, c, h, s.fields[c].curCount);
    OwnCounts(s, c, h, s.mem[h].(count := s.fields[c].curCount));
    MoveKeeps(s, LeaveStep(s, c), c);
  }

  /** A thread with nothing left goes. */
  lemma GoneKeeps(s: State, c: Cache)
    requires Inv(s) && c in s.v.depth && c in s.pcs && s.pcs[c] == Leaving
    requires c in s.fields && s.fields[c].cur == null && s.fields[c].chunkTop == null
    ensures Inv(LeaveStep(s, c)) && LeaveStep(s, c).broken == s.broken
  {
    hide Represented, Sized, TopCommon, Head, See, Builders, Left, KeepsStacks, ThreadInv;
    HasChunks(s, c);
    SoundView(s.v, s.mem);
    CurIsEmpty(s, c);
    LeftRepresented(s.v, s.mem, c);
    LeftSeen(s.v, c);
    LeftLists(s.v, c);
    SizedKept(s.v, Left(s.v, c), c);
    BuildersLeave(s.pcs, c);
    ThreadsGo(s, LeaveStep(s, c), c);
  }

  lemma ThreadsGo(s: State, s': State, c: Cache)
    requires Named(s.v) && (forall d :: d in s.v.depth ==> ThreadInv(s, d)) && c in s.v.depth && s.v.depth[c] == 0
    requires s'.v == Left(s.v, c) && s'.mem == s.mem && s'.fields == s.fields - {c} && s'.pcs == s.pcs - {c}
    ensures forall d :: d in s'.v.depth ==> ThreadInv(s', d)
  {
    hide See, Left, Named;
    LeftSeen(s.v, c);
    forall d | d in s'.v.depth ensures ThreadInv(s', d) {
      assert ThreadInv(s, d);
    }
  }

  lemma CurIsEmpty(s: State, c: Cache)
    requires Inv(s) && c in s.v.depth && c in s.pcs && s.pcs[c] == Leaving && s.fields[c].cur == null
    ensures See(s.v, c).cur == [] && EmptyHands(See(s.v, c))
  {
    hide Represented, Sized, TopCommon, Head, See, Builders;
    assert ThreadInv(s, c);
  }

  lemma BuildersLeave(pcs: map<Cache, Pc>, c: Cache)
    requires c in pcs && !pcs[c].Building?
    ensures Builders(pcs - {c}) == Builders(pcs)
  {
  }

  lemma BuildersCome(pcs: map<Cache, Pc>, c: Cache)
    requires c !in pcs
    ensures Builders(pcs[c := Ready]) == Builders(pcs)
  {
  }

  lemma LeaveKeeps(s: State, c: Cache)
    requires Inv(s) && c in s.v.depth && c in s.pcs && s.pcs[c] == Leaving && Known(s, c)
    ensures Inv(LeaveStep(s, c)) && LeaveStep(s, c).broken == s.broken
  {
    hide Inv, DrawStep;
    if s.fields[c].cur != null {
      LiftKeeps(s, c);
    } else if s.fields[c].chunkTop != null {
      DrawKeeps(s, c, true);
    } else {
      GoneKeeps(s, c);
    }
  }

  /** A thread comes. */
  lemma StartKeeps(s: State, c: Cache)
    requires Inv(s) && c !in s.pcs
    ensures Inv(StartStep(s, c)) && StartStep(s, c).broken == s.broken
  {
    hide Represented, Sized, TopCommon, Head, See, Builders, Joined, KeepsStacks, ThreadInv;
    SoundView(s.v, s.mem);
    JoinedRepresented(s.v, s.mem, c);
    JoinedLists(s.v, c);
    JoinedCommon(s.v, c);
    JoinedOthers(s.v, c);
    SizedKept(s.v, Joined(s.v, c), c);
    BuildersCome(s.pcs, c);
    ThreadsCome(s, StartStep(s, c), c);
  }

  lemma ThreadsCome(s: State, s': State, c: Cache)
    requires Named(s.v) && (forall d :: d in s.v.depth ==> ThreadInv(s, d)) && c !in s.v.depth
    requires s'.v == Joined(s.v, c) && s'.mem == s.mem
    requires s'.fields == s.fields[c := Fields(null, 0, null, 0)] && s'.pcs == s.pcs[c := Ready]
    ensures forall d :: d in s'.v.depth ==> ThreadInv(s', d)
  {
    hide See, Joined, Named;
    JoinedOthers(s.v, c);
    JoinedOwn(s.v, c);
    forall d | d in s'.v.depth ensures ThreadInv(s', d) {
      if d != c {
        assert ThreadInv(s, d);
      }
    }
  }

  // ---------------------------------------------------------------- all steps

  /** Exactly when a step breaks into the debugger: a free of a block that is not in use, a chunk beyond
      the limit, or no memory for one. */
  ghost predicate Breaks(s: State, a: Action) {
    match a
    case Free(_, b) => b in s.v.where && s.v.where[b] != InUse
    case Continue(c, new', _) =>
      c in s.pcs && ((s.pcs[c].Counting? && s.limit != 0 && s.made >= s.limit) || (s.pcs[c].Building? && new' == []))
    case _ => false
  }

  lemma AllocKeeps(s: State, c: Cache, new': seq<Block>, cells: Cells)
    requires Inv(s) && c in s.v.depth && Known(s, c)
    requires s.pcs[c].Refilling? || s.pcs[c].Popping? || s.pcs[c].Building? || s.pcs[c].Carrying? || s.pcs[c].Loaded?
      || s.pcs[c].Taking?
    requires s.pcs[c].Building? ==> Fresh(s, new', cells)
    ensures Inv(Step(s, c, new', cells)) && Step(s, c, new', cells).broken == s.broken
  {
    hide Inv, Fresh, RefillStep, PopStep, BuildStep, InstallStep, UnlinkStep, TakeStep;
    match s.pcs[c]
    case Refilling => RefillKeeps(s, c);
    case Popping => PopKeeps(s, c);
    case Building(stock) => BuildKeeps(s, c, stock, new', cells);
    case Carrying(head) => InstallKeeps(s, c, head);
    case Loaded => UnlinkKeeps(s, c);
    case Taking(b) => TakeKeeps(s, c, b);
  }

  lemma FreeingKeeps(s: State, c: Cache, new': seq<Block>, cells: Cells)
    requires Inv(s) && c in s.v.depth && Known(s, c)
    requires s.pcs[c].Giving? || s.pcs[c].Sealing? || s.pcs[c].Trimming? || s.pcs[c].Pushing? || s.pcs[c].Leaving?
      || s.pcs[c].LeavingPush?
    ensures Inv(Step(s, c, new', cells)) && Step(s, c, new', cells).broken == s.broken
  {
    hide Inv, GiveStep, SealStep, DrawStep, PushStep, LeaveStep;
    match s.pcs[c]
    case Giving(b) => GiveKeeps(s, c, b);
    case Sealing => SealKeeps(s, c);
    case Trimming => TrimKeeps(s, c);
    case Pushing(head) => PushKeeps(s, c, head, Ready);
    case Leaving => LeaveKeeps(s, c);
    case LeavingPush(head) => PushKeeps(s, c, head, Leaving);
  }

  lemma ContinueKeeps(s: State, c: Cache, new': seq<Block>, cells: Cells)
    requires Inv(s) && Known(s, c) && s.pcs[c] != Ready && !s.broken
    requires s.pcs[c].Building? && new' != [] ==> Fresh(s, new', cells)
    ensures Breaks(s, Continue(c, new', cells)) ==> Step(s, c, new', cells).broken
    ensures !Breaks(s, Continue(c, new', cells)) ==> Inv(Step(s, c, new', cells)) && !Step(s, c, new', cells).broken
  {
    hide Inv, Fresh, Step, CountStep;
    KnownIsIn(s, c);
    CountsStep(s, c, new', cells);
    if s.pcs[c].Counting? {
      CountKeeps(s, c, s.pcs[c].stock);
    } else if s.pcs[c].Building? && new' == [] {
      assert Step(s, c, new', cells).broken;
    } else if s.pcs[c].Refilling? || s.pcs[c].Popping? || s.pcs[c].Building? || s.pcs[c].Carrying? || s.pcs[c].Loaded?
      || s.pcs[c].Taking? {
      AllocKeeps(s, c, new', cells);
    } else {
      FreeingKeeps(s, c, new', cells);
    }
  }

  lemma CountsStep(s: State, c: Cache, new': seq<Block>, cells: Cells)
    requires Known(s, c)
    ensures s.pcs[c].Counting? ==> Step(s, c, new', cells) == CountStep(s, c, s.pcs[c].stock)
    ensures s.pcs[c].Building? && new' == [] ==> Step(s, c, new', cells).broken
  {
  }

  lemma TrimKeeps(s: State, c: Cache)
    requires Inv(s) && c in s.v.depth && c in s.pcs && s.pcs[c] == Trimming && Known(s, c)
    ensures Inv(DrawStep(s, c, false)) && DrawStep(s, c, false).broken == s.broken
  {
    hide Inv, DrawStep, See, Represented;
    ThreadOf(s, c);
    HasChunks(s, c);
    DrawKeeps(s, c, false);
  }

  lemma KnownIsIn(s: State, c: Cache)
    requires Inv(s) && Known(s, c)
    ensures c in s.v.depth
  {
  }

  lemma CallKeeps(s: State, c: Cache, pc: Pc)
    requires Inv(s) && Known(s, c) && s.pcs[c] == Ready && (pc == Refilling || pc == Leaving)
    ensures Inv(Calls(s, c, pc))
  {
    hide Represented, Sized, See, TopCommon, Head, Builders, Inv;
    KnownIsIn(s, c);
    ThreadOf(s, c);
    StayKeeps(s, c, pc, s.made);
    assert Went(s, c, s.fields[c], Stay, pc).(made := s.made) == Calls(s, c, pc);
  }

  lemma PrepareKeeps(s: State, c: Cache, below: Block?)
    requires Inv(s) && Known(s, c) && Pushes(s.pcs[c])
    ensures Inv(PrepareStep(s, c, below)) && PrepareStep(s, c, below).broken == s.broken
  {
    hide Represented, Sized, OthersSame, CountsKept, TopCommon, Head, See, Builders, Inv;
    KnownIsIn(s, c);
    ThreadOf(s, c);
    var h := s.pcs[c].head;
    var cell := s.mem[h].(chunkNext := below);
    HandList(s, c);
    LooseHeadIsFree(s.v, s.mem, Hand(c), h, cell);
    SameView(s, c);
    SameCounts(s, c, h, cell);
    var s' := PrepareStep(s, c, below);
    assert s'.fields == s.fields[c := s'.fields[c]] && s'.pcs == s.pcs[c := s'.pcs[c]];
    MoveKeeps(s, s', c);
  }

  lemma HandList(s: State, c: Cache)
    requires Inv(s) && Known(s, c) && Pushes(s.pcs[c])
    ensures Hand(c) in s.v.lists && s.v.lists[Hand(c)] != [] && s.pcs[c].head == Top(s.v.lists[Hand(c)])
    ensures s.pcs[c].head in s.mem
  {
    hide Represented, Sized, TopCommon, Builders;
    KnownIsIn(s, c);
    assert ThreadInv(s, c);
  }

  lemma StockKeeps(s: State, c: Cache)
    requires Inv(s) && Enabled(s, Stock(c))
    ensures Inv(Calls(s, c, Counting(true)))
  {
    hide Represented, Sized, See, TopCommon, Head, Builders, Inv;
    KnownIsIn(s, c);
    ThreadOf(s, c);
    NoChunks(s.v, s.mem, c);
    StayKeeps(s, c, Counting(true), s.made);
    assert Went(s, c, s.fields[c], Stay, Counting(true)).(made := s.made) == Calls(s, c, Counting(true));
  }

  /** Every step of every thread keeps the invariant, or it is one that breaks. */
  lemma ApplyKeepsInv(s: State, a: Action)
    requires Inv(s) && Enabled(s, a)
    ensures Breaks(s, a) <==> Apply(s, a).broken
    ensures !Breaks(s, a) ==> Inv(Apply(s, a))
  {
    hide Inv, Step, FreeStep, Fresh;
    match a
    case Start(c) => StartKeeps(s, c);
    case Alloc(c) => CallKeeps(s, c, Refilling);
    case Free(c, b) =>
      KnownIsIn(s, c);
      FreeKeeps(s, c, b);
    case Exit(c) => CallKeeps(s, c, Leaving);
    case Prepare(c, below) => PrepareKeeps(s, c, below);
    case Stock(c) => StockKeeps(s, c);
    case Continue(c, new', cells) => ContinueKeeps(s, c, new', cells);
  }
}
