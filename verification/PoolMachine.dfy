/** The memory pool of LockFreeMemoryPoolTLS.h and LockFreeMemoryPool.h as a state machine: any number
    of threads in the middle of `Alloc`, `Free` or their cache destructor, and one shared stack.

    A thread's work on its own cache and on blocks that only it can reach is one step between two
    shared operations; the pop and the push of the shared stack, the counting of chunks and the
    exchange of a flag are steps of their own.  TaggedStack proves that the CAS loops provide the
    pop and the push. */
module PoolMachine {
  import opened PoolLayout
  import opened PoolMemory

  /** The fields of a cache, as a value. */
  datatype Fields = Fields(cur: Block?, curCount: int, chunkTop: Block?, chunkCount: int)

  datatype Pc =
    | Ready
    // Alloc
    | Refilling
    | Popping
    | Counting(stock: bool)      // `stock`: for the constructor, not for `Refill`
    | Building(stock: bool)
    | Carrying(head: Block)
    | Loaded
    | Taking(b: Block)
    // Free
    | Giving(b: Block)
    | Sealing
    | Trimming
    | Pushing(head: Block)
    // the cache destructor
    | Leaving
    | LeavingPush(head: Block)

  /** `v` says where the blocks are; it is written along, and no step reads it. */
  datatype State = State(
    v: View,
    mem: Cells,
    fields: map<Cache, Fields>,
    pcs: map<Cache, Pc>,
    top: Block?,                 // m_top, without its tag
    made: nat,                   // m_chunkCount
    limit: nat,                  // m_maxChunks, 0 for none
    broken: bool)                // a break into the debugger, or an access outside the memory

  datatype Action =
    | Start(c: Cache)                                    // a thread gets its cache
    | Alloc(c: Cache)
    | Free(c: Cache, b: Block)
    | Exit(c: Cache)
    | Prepare(c: Cache, below: Block?)                   // a link written by a turn of the loop of `PushChunk`
    | Stock(c: Cache)                                    // a turn of the loop of the pool's constructor
    | Continue(c: Cache, s: seq<Block>, cells: Cells)    // `s` and `cells`: the memory of a new chunk, if there is any

  /** Where a step moves blocks. */
  datatype Move = Stay | Unlink | Mark | Unmark(b: Block) | Relink | Seal | Unseal | Pop | Install | Draw | Lift | Push
    | Grow(s: seq<Block>)

  predicate Possible(v: View, c: Cache, m: Move) {
    match m
    case Stay => true
    case Unlink => Cur(c) in v.lists && v.lists[Cur(c)] != []
    case Mark => Held(c) in v.lists && v.lists[Held(c)] != []
    case Unmark(_) => true
    case Relink => Held(c) in v.lists && v.lists[Held(c)] != [] && Cur(c) in v.lists
    case Seal => c in v.depth && Cur(c) in v.lists
    case Unseal => c in v.depth && v.depth[c] > 0 && TopChunk(v, c) in v.lists
    case Pop => v.common > 0 && TopCommon(v) in v.lists
    case Install => Hand(c) in v.lists
    case Draw => c in v.depth && v.depth[c] > 0 && TopChunk(v, c) in v.lists
    case Lift => Cur(c) in v.lists
    case Push => Hand(c) in v.lists
    case Grow(_) => true
  }

  function MoveBy(v: View, c: Cache, m: Move): View {
    if !Possible(v, c, m) then v
    else
      match m
      case Stay => v
      case Unlink => Unlinked(v, c)
      case Mark => Marked(v, c)
      case Unmark(b) => Unmarked(v, c, b)
      case Relink => Relinked(v, c)
      case Seal => Sealed(v, c)
      case Unseal => Unsealed(v, c)
      case Pop => Popped(v, c)
      case Install => Installed(v, c)
      case Draw => Drawn(v, c)
      case Lift => Lifted(v, c)
      case Push => Pushed(v, c)
      case Grow(s) => Grown(v, c, s)
  }

  // ---------------------------------------------------------------- steps

  function Crash(s: State): State {
    s.(broken := true)
  }

  /** The thread `c` writes its fields, moves blocks and goes on. */
  function Went(s: State, c: Cache, f: Fields, m: Move, pc: Pc): State {
    s.(fields := s.fields[c := f], v := MoveBy(s.v, c, m), pcs := s.pcs[c := pc])
  }

  predicate Known(s: State, c: Cache) {
    c in s.fields && c in s.pcs
  }

  /** A thread is at the beginning of a call. */
  function Calls(s: State, c: Cache, pc: Pc): State {
    s.(pcs := s.pcs[c := pc])
  }

  /** A thread gets an empty cache. */
  function StartStep(s: State, c: Cache): State {
    s.(fields := s.fields[c := Fields(null, 0, null, 0)], pcs := s.pcs[c := Ready], v := Joined(s.v, c))
  }

  /** `Refill` from the cache, if there is anything to refill. */
  function RefillStep(s: State, c: Cache): State
    requires Known(s, c)
  {
    var f := s.fields[c];
    if f.cur != null then Went(s, c, f, Stay, Loaded)
    else if f.chunkTop == null then Went(s, c, f, Stay, Popping)
    else if f.chunkTop !in s.mem then Crash(s)
    else
      var head := s.mem[f.chunkTop];
      Went(s, c, Fields(f.chunkTop, head.count, head.chunkNext, f.chunkCount - 1), Unseal, Loaded)
  }

  /** `PopChunk`. */
  function PopStep(s: State, c: Cache): State
    requires Known(s, c)
  {
    if s.top == null then Went(s, c, s.fields[c], Stay, Counting(false))
    else if s.top !in s.mem then Crash(s)
    else Went(s, c, s.fields[c], Pop, Carrying(s.top)).(top := s.mem[s.top].chunkNext)
  }

  /** The beginning of `NewChunk`, which breaks beyond the limit. */
  function CountStep(s: State, c: Cache, stock: bool): State
    requires Known(s, c)
  {
    var s' := s.(made := s.made + 1);
    if s.limit != 0 && s'.made > s.limit then Crash(s') else Went(s', c, s.fields[c], Stay, Building(stock))
  }

  function Onward(stock: bool, head: Block): Pc {
    if stock then Pushing(head) else Carrying(head)
  }

  /** The rest of `NewChunk`: the blocks `new`, with these contents. */
  function BuildStep(s: State, c: Cache, stock: bool, new': seq<Block>, cells: Cells): State
    requires Known(s, c) && new' != []
  {
    Went(s, c, s.fields[c], Grow(new'), Onward(stock, new'[|new'| - 1])).(mem := s.mem + cells)
  }

  /** The end of `Refill`. */
  function InstallStep(s: State, c: Cache, head: Block): State
    requires Known(s, c)
  {
    if head !in s.mem then Crash(s)
    else Went(s, c, s.fields[c].(cur := head, curCount := s.mem[head].count), Install, Loaded)
  }

  function UnlinkStep(s: State, c: Cache): State
    requires Known(s, c)
  {
    var f := s.fields[c];
    if f.cur == null || f.cur !in s.mem then Crash(s)
    else Went(s, c, f.(cur := s.mem[f.cur].next, curCount := f.curCount - 1), Unlink, Taking(f.cur))
  }

  /** `ValidateAlloc`. */
  function TakeStep(s: State, c: Cache, b: Block): State
    requires Known(s, c)
  {
    if b !in s.mem || s.mem[b].useFlag != 0 then Crash(s)
    else Went(s, c, s.fields[c], Mark, Ready).(mem := s.mem[b := s.mem[b].(useFlag := 1)])
  }

  /** `ValidateFree`: the flag is exchanged before it is looked at. */
  function FreeStep(s: State, c: Cache, b: Block): State
    requires Known(s, c)
  {
    if b !in s.mem then Crash(s)
    else
      var s' := s.(mem := s.mem[b := s.mem[b].(useFlag := 0)]);
      if s.mem[b].useFlag != 1 then Crash(s') else Went(s', c, s.fields[c], Unmark(b), Giving(b))
  }

  function GiveStep(s: State, c: Cache, b: Block): State
    requires Known(s, c)
  {
    var f := s.fields[c];
    if b !in s.mem then Crash(s)
    else
      Went(s, c, f.(cur := b, curCount := f.curCount + 1), Relink,
           if f.curCount + 1 == CHUNK_SIZE then Sealing else Ready)
      .(mem := s.mem[b := s.mem[b].(next := f.cur)])
  }

  /** `Seal` up to its test. */
  function SealStep(s: State, c: Cache): State
    requires Known(s, c)
  {
    var f := s.fields[c];
    if f.cur == null || f.cur !in s.mem then Crash(s)
    else
      Went(s, c, Fields(null, 0, f.cur, f.chunkCount + 1), Seal,
           if f.chunkCount + 1 > TLS_MAX_CHUNKS then Trimming else Ready)
      .(mem := s.mem[f.cur := HeadWritten(s.mem[f.cur], f.curCount, f.chunkTop)])
  }

  /** The top chunk of the cache is taken off, to be pushed. */
  function DrawStep(s: State, c: Cache, leaving: bool): State
    requires Known(s, c)
  {
    var f := s.fields[c];
    if f.chunkTop == null || f.chunkTop !in s.mem then Crash(s)
    else
      Went(s, c, f.(chunkTop := s.mem[f.chunkTop].chunkNext, chunkCount := f.chunkCount - 1), Draw,
           if leaving then LeavingPush(f.chunkTop) else Pushing(f.chunkTop))
  }

  /** `PushChunk`. */
  function PushStep(s: State, c: Cache, head: Block, next: Pc): State
    requires Known(s, c)
  {
    if head !in s.mem then Crash(s)
    else
      Went(s, c, s.fields[c], Push, next)
      .(mem := s.mem[head := s.mem[head].(chunkNext := s.top)], top := head)
  }

  /** `PushChunk` before its exchange: a link that may turn out to be stale. */
  function PrepareStep(s: State, c: Cache, below: Block?): State
    requires Known(s, c) && Pushes(s.pcs[c])
  {
    var head := s.pcs[c].head;
    if head !in s.mem then Crash(s) else s.(mem := s.mem[head := s.mem[head].(chunkNext := below)])
  }

  predicate Pushes(pc: Pc) {
    pc.Pushing? || pc.LeavingPush?
  }

  /** The cache destructor between two pushes. */
  function LeaveStep(s: State, c: Cache): State
    requires Known(s, c)
  {
    var f := s.fields[c];
    if f.cur != null then
      if f.cur !in s.mem then Crash(s)
      else
        Went(s, c, f.(cur := null, curCount := 0), Lift, LeavingPush(f.cur))
        .(mem := s.mem[f.cur := s.mem[f.cur].(count := f.curCount)])
    else if f.chunkTop != null then DrawStep(s, c, true)
    else s.(fields := s.fields - {c}, pcs := s.pcs - {c}, v := Left(s.v, c))
  }

  function Step(s: State, c: Cache, new': seq<Block>, cells: Cells): State
    requires Known(s, c)
  {
    match s.pcs[c]
    case Ready => s
    case Refilling => RefillStep(s, c)
    case Popping => PopStep(s, c)
    case Counting(stock) => CountStep(s, c, stock)
    case Building(stock) => if new' == [] then Crash(s) else BuildStep(s, c, stock, new', cells)
    case Carrying(head) => InstallStep(s, c, head)
    case Loaded => UnlinkStep(s, c)
    case Taking(b) => TakeStep(s, c, b)
    case Giving(b) => GiveStep(s, c, b)
    case Sealing => SealStep(s, c)
    case Trimming => DrawStep(s, c, false)
    case Pushing(head) => PushStep(s, c, head, Ready)
    case Leaving => LeaveStep(s, c)
    case LeavingPush(head) => PushStep(s, c, head, Leaving)
  }

  /** What the loop of `NewChunk` leaves in memory that the pool has not used before. */
  ghost predicate Fresh(s: State, new': seq<Block>, cells: Cells) {
    && |new'| == CHUNK_SIZE && New(s.v, new') && cells.Keys == Elements(new')
    && Chained(new', s.mem + cells) && cells[new'[|new'| - 1]].count == CHUNK_SIZE
  }

  ghost predicate Enabled(s: State, a: Action) {
    && !s.broken
    && match a
       case Start(c) => c !in s.pcs
       case Alloc(c) => Known(s, c) && s.pcs[c] == Ready
       case Free(c, b) => Known(s, c) && s.pcs[c] == Ready && b in s.mem
       case Exit(c) => Known(s, c) && s.pcs[c] == Ready
       case Prepare(c, _) => Known(s, c) && Pushes(s.pcs[c])
       case Stock(c) =>
         Known(s, c) && s.pcs[c] == Ready && s.fields[c].cur == null && s.fields[c].chunkTop == null
       case Continue(c, new', cells) =>
         Known(s, c) && s.pcs[c] != Ready && (s.pcs[c].Building? && new' != [] ==> Fresh(s, new', cells))
  }

  ghost function Apply(s: State, a: Action): State
    requires Enabled(s, a)
  {
    match a
    case Start(c) => StartStep(s, c)
    case Alloc(c) => Calls(s, c, Refilling)
    case Free(c, b) => FreeStep(s, c, b)
    case Exit(c) => Calls(s, c, Leaving)
    case Prepare(c, below) => PrepareStep(s, c, below)
    case Stock(c) => Calls(s, c, Counting(true))
    case Continue(c, new', cells) => Step(s, c, new', cells)
  }

  // ---------------------------------------------------------------- invariant

  /** A thread that moves a chunk knows its head, and the head its length. */
  ghost predicate HandFits(see: Seen, head: Block, mem: Cells) {
    && see.hand != [] && head == Top(see.hand) && see.held == []
    && head in mem && mem[head].count == |see.hand| <= CHUNK_SIZE
  }

  predicate EmptyHands(see: Seen) {
    see.hand == [] && see.held == []
  }

  /** What a thread's lists are like at each point of its code. */
  ghost predicate PcFits(see: Seen, pc: Pc, mem: Cells) {
    && (pc != Trimming ==> see.depth <= TLS_MAX_CHUNKS)
    && match pc
       case Ready => |see.cur| < CHUNK_SIZE && EmptyHands(see)
       case Refilling => |see.cur| < CHUNK_SIZE && EmptyHands(see)
       case Popping => see.cur == [] && see.depth == 0 && EmptyHands(see)
       case Counting(_) => see.cur == [] && see.depth == 0 && EmptyHands(see)
       case Building(_) => see.cur == [] && see.depth == 0 && EmptyHands(see)
       case Carrying(head) => see.cur == [] && see.depth == 0 && HandFits(see, head, mem)
       case Loaded => 1 <= |see.cur| <= CHUNK_SIZE && EmptyHands(see)
       case Taking(b) => |see.cur| < CHUNK_SIZE && see.hand == [] && see.held == [b]
       case Giving(b) => |see.cur| < CHUNK_SIZE && see.hand == [] && see.held == [b]
       case Sealing => |see.cur| == CHUNK_SIZE && EmptyHands(see)
       case Trimming => see.cur == [] && see.depth == TLS_MAX_CHUNKS + 1 && EmptyHands(see)
       case Pushing(head) => |see.cur| < CHUNK_SIZE && HandFits(see, head, mem)
       case Leaving => |see.cur| < CHUNK_SIZE && EmptyHands(see)
       case LeavingPush(head) => |see.cur| < CHUNK_SIZE && HandFits(see, head, mem)
  }

  ghost predicate FieldsFit(see: Seen, f: Fields) {
    && f.cur == Top(see.cur) && f.curCount == |see.cur|
    && f.chunkTop == see.chunkTop && f.chunkCount == see.depth
  }

  ghost predicate ThreadInv(s: State, c: Cache) {
    c in s.v.depth && Known(s, c) && FieldsFit(See(s.v, c), s.fields[c]) && PcFits(See(s.v, c), s.pcs[c], s.mem)
  }

  /** Sealed chunks are full, shared ones at most full. */
  ghost predicate Sized(v: View) {
    forall n :: n in v.lists ==>
      (n.Chunk? ==> |v.lists[n]| == CHUNK_SIZE) && (n.Common? ==> |v.lists[n]| <= CHUNK_SIZE)
  }

  ghost function Builders(pcs: map<Cache, Pc>): set<Cache> {
    set c | c in pcs && pcs[c].Building?
  }

  ghost predicate Inv(s: State) {
    && Represented(s.v, s.mem) && Sized(s.v) && s.top == Head(s.v, TopCommon(s.v))
    && s.pcs.Keys == s.v.depth.Keys
    && (forall c :: c in s.v.depth ==> ThreadInv(s, c))
    && |s.v.where| + CHUNK_SIZE * |Builders(s.pcs)| == CHUNK_SIZE * s.made
  }
}
