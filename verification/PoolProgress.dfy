/** What the calls into the memory pool come to while other threads are in the middle of theirs: each
    `Alloc` hands out one block, new memory is used only where there is no idle block to find, and a call
    that nobody interferes with ends. */
module PoolProgress {
  import opened PoolLayout
  import opened PoolMemory
  import opened PoolMachine
  import opened PoolMoves
  import opened PoolSteps
  import opened PoolRuns

  // ---------------------------------------------------------------- where blocks come from

  /** A thread asks the shared stack only when its current list and its cache are empty, and makes a chunk
      only when it finds the shared stack empty. */
  lemma GrowsOnlyWhenEmpty(s0: State, acts: seq<Action>, s: State, c: Cache)
    requires Reached(s0, acts, s) && Known(s, c) && (s.pcs[c].Refilling? || s.pcs[c].Popping?)
    ensures var f, z := s.fields[c], Step(s, c, [], map[]);
            && Known(z, c)
            && (s.pcs[c].Refilling? ==>
                  z.pcs[c] == if f.cur == null && f.chunkTop == null then Popping else Loaded)
            && (s.pcs[c].Refilling? ==> z.fields[c].cur == if f.cur != null then f.cur else f.chunkTop)
            && (s.pcs[c].Popping? ==> z.pcs[c] == if s.top == null then Counting(false) else Carrying(s.top))
  {
    hide Reached, Inv, MoveBy, CountStep, BuildStep, InstallStep, UnlinkStep, TakeStep, GiveStep, SealStep, DrawStep,
      PushStep, LeaveStep;
    ReachedInv(s0, acts, s);
    TopsAreThere(s, c);
  }

  lemma TopsAreThere(s: State, c: Cache)
    requires Inv(s) && Known(s, c)
    ensures s.fields[c].chunkTop != null ==> s.fields[c].chunkTop in s.mem
    ensures s.top != null ==> s.top in s.mem
  {
    hide Represented, Sized, See, Builders, Head, TopCommon;
    KnownIsIn(s, c);
    ThreadOf(s, c);
    ReprOf(s);
    TopsPlaced(s.v, s.mem, c);
  }

  lemma TopsPlaced(v: View, mem: Cells, c: Cache)
    requires Represented(v, mem) && c in v.depth
    ensures See(v, c).chunkTop != null ==> See(v, c).chunkTop in mem
    ensures Head(v, TopCommon(v)) != null ==> Head(v, TopCommon(v)) in mem
  {
    hide Linked, Flagged, Headed, Placed, Named;
    ChunksSeen(v, c);
    if See(v, c).chunkTop != null { TopPlaced(v, mem, TopChunk(v, c)); }
    if Head(v, TopCommon(v)) != null { TopPlaced(v, mem, TopCommon(v)); }
  }

  // ---------------------------------------------------------------- calls of Alloc

  /** Whether an `Alloc` is on its way. */
  function Allocating(s: State, c: Cache): nat {
    if c in s.pcs then AllocatingAt(s.pcs[c]) else 0
  }

  function AllocatingAt(pc: Pc): nat {
    match pc
    case Refilling | Popping | Loaded => 1
    case Counting(stock) => if stock then 0 else 1
    case Building(stock) => if stock then 0 else 1
    case Carrying(_) => 1
    case Taking(_) => 1
    case _ => 0
  }

  function Asked(a: Action, c: Cache): nat {
    if a == Action.Alloc(c) then 1 else 0
  }

  /** The blocks that a step hands out to `c`. */
  function HandedOut(s: State, a: Action, c: Cache): seq<Block> {
    if a.Continue? && a.c == c && c in s.pcs && s.pcs[c].Taking? then [s.pcs[c].b] else []
  }

  lemma OwnStep(s: State, c: Cache, new': seq<Block>, cells: Cells)
    requires Known(s, c) && s.pcs[c] != Ready && !Step(s, c, new', cells).broken
    ensures Allocating(s, c) == |HandedOut(s, Continue(c, new', cells), c)| + Allocating(Step(s, c, new', cells), c)
  {
    hide Step, AllocSide, FreeSide;
    if AllocSide(s.pcs[c]) { OwnAllocStep(s, c, new', cells); }
    else if FreeSide(s.pcs[c]) { OwnFreeStep(s, c, new', cells); }
    else { OwnPushStep(s, c, new', cells); }
  }

  lemma OwnAllocStep(s: State, c: Cache, new': seq<Block>, cells: Cells)
    requires Known(s, c) && s.pcs[c] != Ready && AllocSide(s.pcs[c]) && !Step(s, c, new', cells).broken
    ensures Allocating(s, c) == |HandedOut(s, Continue(c, new', cells), c)| + Allocating(Step(s, c, new', cells), c)
  {
    hide MoveBy, GiveStep, SealStep, DrawStep, PushStep, LeaveStep;
  }

  predicate FreeSide(pc: Pc) {
    pc.Giving? || pc.Sealing? || pc.Trimming?
  }

  lemma OwnFreeStep(s: State, c: Cache, new': seq<Block>, cells: Cells)
    requires Known(s, c) && FreeSide(s.pcs[c])
    ensures Allocating(s, c) == |HandedOut(s, Continue(c, new', cells), c)| + Allocating(Step(s, c, new', cells), c)
  {
    hide MoveBy, RefillStep, PopStep, CountStep, BuildStep, InstallStep, UnlinkStep, TakeStep, PushStep, LeaveStep;
  }

  lemma OwnPushStep(s: State, c: Cache, new': seq<Block>, cells: Cells)
    requires Known(s, c) && !AllocSide(s.pcs[c]) && !FreeSide(s.pcs[c])
    ensures Allocating(s, c) == |HandedOut(s, Continue(c, new', cells), c)| + Allocating(Step(s, c, new', cells), c)
  {
    hide MoveBy, RefillStep, PopStep, CountStep, BuildStep, InstallStep, UnlinkStep, TakeStep, GiveStep, SealStep;
  }

  lemma AllocsMove(s: State, a: Action, c: Cache)
    requires Enabled(s, a) && !Apply(s, a).broken
    ensures Allocating(s, c) + Asked(a, c) == |HandedOut(s, a, c)| + Allocating(Apply(s, a), c)
  {
    if a.Continue? && a.c == c {
      hide Allocating, HandedOut, Step, Fresh;
      OwnStep(s, c, a.s, a.cells);
    } else if a.Continue? {
      hide Fresh, Step;
      OtherStep(s, a.c, a.s, a.cells, c);
    } else {
      hide MoveBy;
    }
  }

  predicate AllocSide(pc: Pc) {
    || pc.Ready? || pc.Refilling? || pc.Popping? || pc.Counting? || pc.Building? || pc.Carrying? || pc.Loaded?
    || pc.Taking?
  }

  /** Another thread is where it was. */
  predicate Waits(s: State, z: State, d: Cache) {
    (d in z.pcs <==> d in s.pcs) && (d in s.pcs ==> z.pcs[d] == s.pcs[d])
  }

  lemma OtherRefills(s: State, c: Cache, new': seq<Block>, cells: Cells, d: Cache)
    requires Known(s, c) && c != d && (s.pcs[c].Ready? || s.pcs[c].Refilling? || s.pcs[c].Popping?)
    ensures Waits(s, Step(s, c, new', cells), d)
  {
    hide MoveBy, CountStep, BuildStep, InstallStep, UnlinkStep, TakeStep, GiveStep, SealStep,
      DrawStep, PushStep, LeaveStep;
  }

  lemma OtherBuilds(s: State, c: Cache, new': seq<Block>, cells: Cells, d: Cache)
    requires Known(s, c) && c != d && (s.pcs[c].Counting? || s.pcs[c].Building? || s.pcs[c].Carrying?)
    ensures Waits(s, Step(s, c, new', cells), d)
  {
    hide MoveBy, RefillStep, PopStep, UnlinkStep, TakeStep, GiveStep, SealStep, DrawStep,
      PushStep, LeaveStep;
  }

  lemma OtherTakes(s: State, c: Cache, new': seq<Block>, cells: Cells, d: Cache)
    requires Known(s, c) && c != d && (s.pcs[c].Loaded? || s.pcs[c].Taking? || s.pcs[c].Giving?)
    ensures Waits(s, Step(s, c, new', cells), d)
  {
    hide MoveBy, RefillStep, PopStep, CountStep, BuildStep, InstallStep, SealStep, DrawStep,
      PushStep, LeaveStep;
  }

  lemma OtherSeals(s: State, c: Cache, new': seq<Block>, cells: Cells, d: Cache)
    requires Known(s, c) && c != d && (s.pcs[c].Sealing? || s.pcs[c].Trimming? || s.pcs[c].Pushing?)
    ensures Waits(s, Step(s, c, new', cells), d)
  {
    hide MoveBy, RefillStep, PopStep, CountStep, BuildStep, InstallStep, UnlinkStep, TakeStep,
      GiveStep, LeaveStep;
  }

  lemma OtherLeaves(s: State, c: Cache, new': seq<Block>, cells: Cells, d: Cache)
    requires Known(s, c) && c != d && (s.pcs[c].Leaving? || s.pcs[c].LeavingPush?)
    ensures Waits(s, Step(s, c, new', cells), d)
  {
    hide MoveBy, RefillStep, PopStep, CountStep, BuildStep, InstallStep, UnlinkStep, TakeStep,
      GiveStep, SealStep;
  }

  lemma OtherStep(s: State, c: Cache, new': seq<Block>, cells: Cells, d: Cache)
    requires Known(s, c) && c != d
    ensures Allocating(Step(s, c, new', cells), d) == Allocating(s, d)
  {
    hide Step;
    var pc := s.pcs[c];
    if pc.Ready? || pc.Refilling? || pc.Popping? { OtherRefills(s, c, new', cells, d); }
    else if pc.Counting? || pc.Building? || pc.Carrying? { OtherBuilds(s, c, new', cells, d); }
    else if pc.Loaded? || pc.Taking? || pc.Giving? { OtherTakes(s, c, new', cells, d); }
    else if pc.Leaving? || pc.LeavingPush? { OtherLeaves(s, c, new', cells, d); }
    else { OtherSeals(s, c, new', cells, d); }
  }

  function AskedIn(acts: seq<Action>, c: Cache): nat {
    if acts == [] then 0 else Asked(acts[0], c) + AskedIn(acts[1..], c)
  }

  ghost function HandedOutIn(s: State, acts: seq<Action>, c: Cache): seq<Block>
    requires Legal(s, acts)
    decreases |acts|
  {
    if acts == [] then [] else HandedOut(s, acts[0], c) + HandedOutIn(Apply(s, acts[0]), acts[1..], c)
  }

  /** Each `Alloc` hands out exactly one block, except for one that is still on its way. */
  lemma {:induction false} AllocsTheorem(s: State, acts: seq<Action>, c: Cache)
    requires Legal(s, acts) && !Run(s, acts).broken
    ensures Allocating(s, c) + AskedIn(acts, c) == |HandedOutIn(s, acts, c)| + Allocating(Run(s, acts), c)
    decreases |acts|
  {
    hide Enabled, Apply, Allocating, Asked, HandedOut;
    if acts != [] {
      if Apply(s, acts[0]).broken {
        BrokenStays(Apply(s, acts[0]), acts[1..]);
      } else {
        AllocsMove(s, acts[0], c);
        AllocsTheorem(Apply(s, acts[0]), acts[1..], c);
      }
    }
  }

  // ---------------------------------------------------------------- alone, every call ends

  /** How many more steps a call of `c` takes at most if nobody else moves. */
  function Left(s: State, c: Cache): nat {
    if c in s.pcs && c in s.fields then LeftAt(s.pcs[c], s.fields[c]) else 0
  }

  function LeftAt(pc: Pc, f: Fields): nat {
    var chunks: nat := if f.chunkCount > 0 then f.chunkCount else 0;
    var lists := 2 * chunks + if f.cur != null then 2 else 0;
    match pc
    case Ready => 0
    case Refilling => 7
    case Popping => 6
    case Counting(_) => 5
    case Building(_) => 4
    case Carrying(_) => 3
    case Loaded => 2
    case Taking(_) => 1
    case Giving(_) => 4
    case Sealing => 3
    case Trimming => 2
    case Pushing(_) => 1
    case Leaving => lists + 1
    case LeavingPush(_) => lists + 2
  }

  lemma AllocNears(s: State, c: Cache, new': seq<Block>, cells: Cells)
    requires Known(s, c) && s.pcs[c] != Ready && AllocSide(s.pcs[c]) && !Step(s, c, new', cells).broken
    ensures Left(Step(s, c, new', cells), c) < Left(s, c)
  {
    hide MoveBy, GiveStep, SealStep, DrawStep, PushStep, LeaveStep;
  }

  lemma FreeNears(s: State, c: Cache, new': seq<Block>, cells: Cells)
    requires Known(s, c) && FreeSide(s.pcs[c]) && !Step(s, c, new', cells).broken
    ensures Left(Step(s, c, new', cells), c) < Left(s, c)
  {
    hide MoveBy, RefillStep, PopStep, CountStep, BuildStep, InstallStep, UnlinkStep, TakeStep, PushStep, LeaveStep;
  }

  lemma PushNears(s: State, c: Cache, new': seq<Block>, cells: Cells)
    requires Known(s, c) && !AllocSide(s.pcs[c]) && !FreeSide(s.pcs[c]) && !Step(s, c, new', cells).broken
    requires s.pcs[c].Leaving? && s.fields[c].chunkTop != null ==> s.fields[c].chunkCount > 0
    ensures Left(Step(s, c, new', cells), c) < Left(s, c)
  {
    hide MoveBy, RefillStep, PopStep, CountStep, BuildStep, InstallStep, UnlinkStep, TakeStep, GiveStep, SealStep;
  }

  lemma ChunksAreCounted(s: State, c: Cache)
    requires Inv(s) && Known(s, c)
    ensures s.fields[c].chunkTop != null ==> s.fields[c].chunkCount > 0
    ensures s.fields[c].chunkCount <= TLS_MAX_CHUNKS + 1
  {
    hide Represented, Sized, See, Builders, TopCommon, Head;
    KnownIsIn(s, c);
    HasChunks(s, c);
    ThreadOf(s, c);
  }

  /** Each step that a thread makes while nobody interferes brings its call nearer to its end. */
  lemma StepNears(s: State, c: Cache, new': seq<Block>, cells: Cells)
    requires Inv(s) && Enabled(s, Continue(c, new', cells)) && !Step(s, c, new', cells).broken
    ensures Left(Step(s, c, new', cells), c) < Left(s, c)
  {
    hide Inv, Step, Left, Fresh, AllocSide, FreeSide;
    ChunksAreCounted(s, c);
    if AllocSide(s.pcs[c]) { AllocNears(s, c, new', cells); }
    else if FreeSide(s.pcs[c]) { FreeNears(s, c, new', cells); }
    else { PushNears(s, c, new', cells); }
  }

  ghost predicate OnlyContinues(acts: seq<Action>, c: Cache) {
    forall i :: 0 <= i < |acts| ==> acts[i].Continue? && acts[i].c == c
  }

  lemma LeftIsBounded(s: State, c: Cache)
    requires Inv(s)
    ensures Left(s, c) <= 26
    ensures Known(s, c) ==> (Left(s, c) == 0 <==> s.pcs[c].Ready?)
  {
    if Known(s, c) {
      hide Inv;
      ChunksAreCounted(s, c);
    }
  }

  /** A call that runs alone, from whatever point, is over after at most 26 steps: the cache destructor with
      its eleven pushes; the others after at most 7. */
  lemma {:induction false} AloneItEnds(s: State, acts: seq<Action>, c: Cache)
    requires Inv(s) && Legal(s, acts) && OnlyContinues(acts, c) && !Run(s, acts).broken
    ensures |acts| + Left(Run(s, acts), c) <= Left(s, c) <= 26
    decreases |acts|
  {
    hide Inv, Enabled, Apply, Left, Breaks, Step;
    LeftIsBounded(s, c);
    if acts != [] {
      if Apply(s, acts[0]).broken {
        BrokenStays(Apply(s, acts[0]), acts[1..]);
      } else {
        ApplyKeepsInv(s, acts[0]);
        ContinueIsStep(s, acts[0]);
        StepNears(s, c, acts[0].s, acts[0].cells);
        assert forall i :: 0 <= i < |acts| - 1 ==> acts[1..][i] == acts[i + 1];
        AloneItEnds(Apply(s, acts[0]), acts[1..], c);
      }
    }
  }

  lemma ContinueIsStep(s: State, a: Action)
    requires Enabled(s, a) && a.Continue?
    ensures Known(s, a.c) && Apply(s, a) == Step(s, a.c, a.s, a.cells)
  {
    hide Fresh, Step;
  }
}
