/** The thread-caching memory pool of LockFreeMemoryPoolTLS.h on top of the chunk stack of
    LockFreeMemoryPool.h: blocks, caches and the shared stack changed in place.

    A method is a call of one thread that no other thread interrupts: the run of the state machine in
    which only that thread moves.  The other threads may be anywhere in their own calls. */
module MemoryPool {
  import opened PoolLayout
  import opened PoolMemory
  import opened PoolMachine
  import opened PoolMoves
  import opened PoolSteps
  import opened PoolRuns
  import opened PoolCalls

  function ChunksFor(blocks: nat): (n: nat)
    ensures (n - 1) * CHUNK_SIZE < blocks <= n * CHUNK_SIZE || (blocks == 0 && n == 0)
  {
    (blocks + CHUNK_SIZE - 1) / CHUNK_SIZE
  }

  /** That many chunks can be made beside those there are. */
  predicate CanMake(chunks: nat, made: nat, limit: nat, heap: nat) {
    chunks == 0 || ((limit == 0 || made + chunks <= limit) && chunks <= heap)
  }

  class Pool {
    var top: Block?                // m_top, without its tag
    var chunkCount: nat            // m_chunkCount
    const limit: nat               // m_maxChunks, 0 for none
    var heap: nat                  // how many more chunks `_aligned_malloc` can provide
    ghost var s: State

    ghost predicate ShowsBlocks(mem: Cells) reads mem.Keys {
      forall b :: b in mem ==> mem[b] == Cell(b.next, b.chunkNext, b.count, b.useFlag) && b.owner == this
    }

    ghost predicate ShowsCaches(fields: map<Cache, Fields>) reads fields.Keys {
      forall c :: c in fields ==> fields[c] == Fields(c.cur, c.curCount, c.chunkTop, c.chunkCount)
    }

    /** The memory is what the state `s` of the machine says. */
    ghost predicate Shows() reads this, s.mem.Keys, s.fields.Keys {
      && ShowsBlocks(s.mem) && ShowsCaches(s.fields)
      && top == s.top && chunkCount == s.made && limit == s.limit && !s.broken
    }

    ghost predicate Valid() reads this, s.mem.Keys, s.fields.Keys {
      Shows() && Inv(s)
    }

    // ---------------------------------------------------------------- single steps

    twostate lemma BlockWritten(b: Block)
      requires old(ShowsBlocks(s.mem)) && b in old(s.mem)
      requires forall x :: x in old(s.mem) && x != b ==>
                 x.next == old(x.next) && x.chunkNext == old(x.chunkNext) && x.count == old(x.count)
                   && x.useFlag == old(x.useFlag)
      ensures ShowsBlocks(old(s.mem)[b := Cell(b.next, b.chunkNext, b.count, b.useFlag)])
    {
    }

    twostate lemma CacheWritten(c: Cache)
      requires old(ShowsCaches(s.fields)) && c in old(s.fields)
      requires forall d :: d in old(s.fields) && d != c ==>
                 d.cur == old(d.cur) && d.curCount == old(d.curCount) && d.chunkTop == old(d.chunkTop)
                 && d.chunkCount == old(d.chunkCount)
      ensures ShowsCaches(old(s.fields)[c := Fields(c.cur, c.curCount, c.chunkTop, c.chunkCount)])
    {
    }

    lemma Read(c: Cache)
      requires Shows() && Known(s, c)
      ensures s.fields[c] == Fields(c.cur, c.curCount, c.chunkTop, c.chunkCount)
    {
    }

    lemma ReadBlock(b: Block)
      requires Shows() && b in s.mem
      ensures s.mem[b] == Cell(b.next, b.chunkNext, b.count, b.useFlag) && b.owner == this
    {
    }

    /** The first branch of `Refill`. */
    method TakeCached(c: Cache)
      requires Shows() && Known(s, c) && s.pcs[c] == Refilling && c.cur == null && c.chunkTop != null
      requires c.chunkTop in s.mem
      modifies this`s, c
      ensures Shows() && s == Step(old(s), c, [], map[]) && Known(s, c) && s.pcs[c] == Loaded
      ensures s.mem == old(s.mem)
      ensures c.cur == old(c.chunkTop)
    {
      hide Step, ShowsBlocks, ShowsCaches, MoveBy;
      Read(c);
      var head := c.chunkTop;
      ReadBlock(head);
      c.chunkTop := head.chunkNext;
      c.chunkCount := c.chunkCount - 1;
      c.cur := head;
      c.curCount := head.count;
      CacheWritten(c);
      StepIs(s, c, [], map[]);
      s := RefillStep(s, c);
    }

    /** The tests of `Alloc` and `Refill`, where there is nothing to take from the cache or no need to. */
    ghost method Decide(c: Cache)
      requires Shows() && Known(s, c) && s.pcs[c] == Refilling && (c.cur != null || c.chunkTop == null)
      modifies this`s
      ensures Shows() && s == Step(old(s), c, [], map[]) && Known(s, c)
              && s.pcs[c] == if c.cur != null then Loaded else Popping
      ensures s.mem == old(s.mem)
    {
      hide Step, ShowsBlocks, ShowsCaches, MoveBy;
      Read(c);
      assert s.fields[c := s.fields[c]] == s.fields;
      StepIs(s, c, [], map[]);
      s := RefillStep(s, c);
    }

    /** The test of `PopChunk`, where the stack is empty. */
    ghost method FindEmpty(c: Cache)
      requires Shows() && Known(s, c) && s.pcs[c] == Popping && top == null
      modifies this`s
      ensures Shows() && s == Step(old(s), c, [], map[]) && Known(s, c) && s.pcs[c] == Counting(false)
      ensures s.mem == old(s.mem)
    {
      hide Step, ShowsBlocks, ShowsCaches, MoveBy;
      assert s.fields[c := s.fields[c]] == s.fields;
      StepIs(s, c, [], map[]);
      s := PopStep(s, c);
    }

    /** The pop of `PopChunk`. */
    method PopTop(ghost c: Cache) returns (head: Block)
      requires Shows() && Known(s, c) && s.pcs[c] == Popping && top != null && top in s.mem
      modifies this`s, this`top
      ensures Shows() && s == Step(old(s), c, [], map[]) && Known(s, c) && s.pcs[c] == Carrying(head)
      ensures s.mem == old(s.mem)
      ensures head == old(top)
    {
      hide Step, ShowsBlocks, ShowsCaches, MoveBy;
      head := top;
      ReadBlock(head);
      top := head.chunkNext;
      assert s.fields[c := s.fields[c]] == s.fields;
      StepIs(s, c, [], map[]);
      s := PopStep(s, c);
    }

    /** The beginning of `NewChunk`; false where it breaks. */
    method CountChunk(ghost c: Cache, ghost stock: bool) returns (ok: bool)
      requires Shows() && Known(s, c) && s.pcs[c] == Counting(stock)
      modifies this`s, this`chunkCount
      ensures ok <==> limit == 0 || old(chunkCount) < limit
      ensures ok ==> Shows() && s == Step(old(s), c, [], map[]) && Known(s, c) && s.pcs[c] == Building(stock)
      ensures s.mem == old(s.mem) && chunkCount == old(chunkCount) + 1
    {
      hide Step, ShowsBlocks, ShowsCaches, MoveBy;
      chunkCount := chunkCount + 1;
      if limit != 0 && chunkCount > limit { return false; }
      ok := true;
      assert s.fields[c := s.fields[c]] == s.fields;
      StepIs(s, c, [], map[]);
      s := CountStep(s, c, stock);
    }

    /** New blocks, linked from the top down to null. */
    ghost predicate Built(new': seq<Block>) reads new' {
      && (forall k {:trigger new'[k]} :: 0 <= k < |new'| ==>
            new'[k].owner == this && new'[k].useFlag == 0 && new'[k].next == Top(new'[..k]))
      && (forall j, k :: 0 <= j < k < |new'| ==> new'[j] != new'[k])
    }

    lemma BuiltMore(new': seq<Block>, b: Block)
      requires Built(new') && b !in new' && b.owner == this && b.useFlag == 0 && b.next == Top(new')
      ensures Built(new' + [b]) && Top(new' + [b]) == b
    {
      Prefixes(new', b);
    }

    /** The loop of `NewChunk`. */
    method LinkBlocks() returns (top: Block?, ghost new': seq<Block>)
      ensures |new'| == CHUNK_SIZE && top == Top(new') && Built(new')
      ensures forall k :: 0 <= k < |new'| ==> fresh(new'[k])
    {
      top := null;
      new' := [];
      assert Built(new');
      hide Built;
      var i := CHUNK_SIZE;
      while i > 0
        invariant i >= 0 && i + |new'| == CHUNK_SIZE && top == Top(new') && Built(new')
        invariant forall k :: 0 <= k < |new'| ==> fresh(new'[k])
      {
        i := i - 1;
        var b := new Block(this, top);
        BuiltMore(new', b);
        top := b;
        new' := new' + [b];
      }
    }

    method BuildBlocks() returns (head: Block, ghost new': seq<Block>)
      ensures |new'| == CHUNK_SIZE == head.count && head == new'[CHUNK_SIZE - 1] && Built(new')
      ensures forall k :: 0 <= k < |new'| ==> fresh(new'[k])
    {
      head, new' := LinkBlocks();
      head.count := CHUNK_SIZE;
    }

    ghost function CellsOf(new': seq<Block>): Cells reads new' {
      map b | b in new' :: Cell(b.next, b.chunkNext, b.count, b.useFlag)
    }

    lemma BuiltIsFresh(new': seq<Block>)
      requires Built(new') && |new'| == CHUNK_SIZE == new'[CHUNK_SIZE - 1].count
      requires s.mem.Keys == s.v.where.Keys && forall k :: 0 <= k < |new'| ==> new'[k] !in s.mem
      ensures Fresh(s, new', CellsOf(new'))
    {
    }

    lemma BuiltShows(new': seq<Block>)
      requires Built(new') && ShowsBlocks(s.mem)
      ensures ShowsBlocks(s.mem + CellsOf(new'))
    {
    }

    /** `NewChunk` after its test. */
    method BuildChunk(ghost c: Cache, ghost stock: bool) returns (head: Block, ghost new': seq<Block>)
      requires Shows() && Known(s, c) && s.pcs[c] == Building(stock) && s.mem.Keys == s.v.where.Keys
      modifies this`s
      ensures Fresh(old(s), new', CellsOf(new')) && new' != [] && head == new'[|new'| - 1]
      ensures Shows() && s == Step(old(s), c, new', CellsOf(new')) && Known(s, c) && s.pcs[c] == Onward(stock, head)
      ensures old(s.mem.Keys) <= s.mem.Keys && fresh(s.mem.Keys - old(s.mem.Keys))
      ensures fresh(head)
    {
      hide Step, BuildStep, Onward, Grown, ShowsBlocks, ShowsCaches, MoveBy, Fresh, Built;
      head, new' := BuildBlocks();
      BuiltIsFresh(new');
      BuiltShows(new');
      assert s.fields[c := s.fields[c]] == s.fields;
      StepIs(s, c, new', CellsOf(new'));
      BuildShape(s, c, stock, new', CellsOf(new'));
      s := BuildStep(s, c, stock, new', CellsOf(new'));
    }

    /** The end of `Refill`. */
    method Install(c: Cache, head: Block)
      requires Shows() && Known(s, c) && s.pcs[c] == Carrying(head) && head in s.mem
      modifies this`s, c
      ensures Shows() && s == Step(old(s), c, [], map[]) && Known(s, c) && s.pcs[c] == Loaded
      ensures s.mem == old(s.mem)
      ensures c.cur == head
    {
      hide Step, ShowsBlocks, ShowsCaches, MoveBy;
      Read(c);
      ReadBlock(head);
      c.cur := head;
      c.curCount := head.count;
      CacheWritten(c);
      StepIs(s, c, [], map[]);
      s := InstallStep(s, c, head);
    }

    method Unlink(c: Cache) returns (b: Block)
      requires Shows() && Known(s, c) && s.pcs[c] == Loaded && c.cur != null && c.cur in s.mem
      modifies this`s, c
      ensures Shows() && s == Step(old(s), c, [], map[]) && Known(s, c) && s.pcs[c] == Taking(b)
      ensures s.mem == old(s.mem)
      ensures b == old(c.cur)
    {
      hide Step, ShowsBlocks, ShowsCaches, MoveBy;
      Read(c);
      b := c.cur;
      ReadBlock(b);
      c.cur := b.next;
      c.curCount := c.curCount - 1;
      CacheWritten(c);
      StepIs(s, c, [], map[]);
      s := UnlinkStep(s, c);
    }

    /** False where it breaks. */
    method ValidateAlloc(ghost c: Cache, b: Block) returns (ok: bool)
      requires Shows() && Known(s, c) && s.pcs[c] == Taking(b) && b in s.mem
      modifies this`s, b
      ensures ok <==> old(b.useFlag) == 0
      ensures ok ==> Shows() && s == Step(old(s), c, [], map[]) && Known(s, c) && s.pcs[c] == Ready
      ensures ok ==> s.mem.Keys == old(s.mem.Keys) && b.useFlag == 1
    {
      hide Step, ShowsBlocks, ShowsCaches, MoveBy;
      ReadBlock(b);
      if b.owner != this || b.useFlag != 0 { return false; }
      ok := true;
      b.useFlag := 1;
      BlockWritten(b);
      assert s.fields[c := s.fields[c]] == s.fields;
      StepIs(s, c, [], map[]);
      s := TakeStep(s, c, b);
    }

    /** False where it breaks. */
    method ValidateFree(ghost c: Cache, b: Block) returns (ok: bool)
      requires Shows() && Known(s, c) && (b.owner == this ==> b in s.mem)
      modifies this`s, s.mem.Keys
      ensures ok <==> b in old(s.mem) && old(s.mem[b].useFlag) == 1
      ensures ok ==> Shows() && s == FreeStep(old(s), c, b)
    {
      hide Step, ShowsBlocks, ShowsCaches, MoveBy;
      if b in s.mem { ReadBlock(b); }
      if b.owner != this { return false; }
      ok := b.useFlag == 1;
      b.useFlag := 0;
      if !ok { return; }
      BlockWritten(b);
      assert s.fields[c := s.fields[c]] == s.fields;
      s := FreeStep(s, c, b);
    }

    method LinkBack(c: Cache, b: Block)
      requires Shows() && Known(s, c) && s.pcs[c] == Giving(b) && b in s.mem
      modifies this`s, c, b
      ensures Shows() && s == Step(old(s), c, [], map[]) && Known(s, c)
              && s.pcs[c] == if c.curCount == CHUNK_SIZE then Sealing else Ready
      ensures s.mem.Keys == old(s.mem.Keys)
      ensures c.cur == b && c.curCount == old(c.curCount) + 1
      ensures c.chunkTop == old(c.chunkTop) && c.chunkCount == old(c.chunkCount)
    {
      hide Step, ShowsBlocks, ShowsCaches, MoveBy;
      Read(c);
      ReadBlock(b);
      b.next := c.cur;
      c.cur := b;
      c.curCount := c.curCount + 1;
      BlockWritten(b);
      CacheWritten(c);
      StepIs(s, c, [], map[]);
      s := GiveStep(s, c, b);
    }

    /** The writes of `Seal`. */
    method WriteSealed(c: Cache)
      requires Shows() && Known(s, c) && c.cur != null && c.cur in s.mem
      modifies c, c.cur
      ensures var f := s.fields[c]; (
              && f.cur in s.mem && ShowsBlocks(s.mem[f.cur := HeadWritten(s.mem[f.cur], f.curCount, f.chunkTop)])
              && ShowsCaches(s.fields[c := Fields(null, 0, f.cur, f.chunkCount + 1)]))
      ensures c.chunkCount == s.fields[c].chunkCount + 1
      ensures c.cur == null && c.curCount == 0 && c.chunkTop == old(c.cur) && c.chunkCount == old(c.chunkCount) + 1
      ensures old(c.cur).chunkNext == old(c.chunkTop)
    {
      hide ShowsBlocks, ShowsCaches;
      Read(c);
      var cur := c.cur;
      ReadBlock(cur);
      cur.count := c.curCount;
      cur.chunkNext := c.chunkTop;
      c.chunkTop := cur;
      c.chunkCount := c.chunkCount + 1;
      c.cur := null;
      c.curCount := 0;
      BlockWritten(cur);
      CacheWritten(c);
    }

    /** `Seal` up to its test. */
    method SealCurrent(c: Cache)
      requires Shows() && Known(s, c) && s.pcs[c] == Sealing && c.cur != null && c.cur in s.mem
      modifies this`s, c, c.cur
      ensures Shows() && s == Step(old(s), c, [], map[]) && Known(s, c)
      ensures s.pcs[c] == (if c.chunkCount > TLS_MAX_CHUNKS then Trimming else Ready) && s.mem.Keys == old(s.mem.Keys)
      ensures c.cur == null && c.curCount == 0 && c.chunkTop == old(c.cur) && c.chunkCount == old(c.chunkCount) + 1
      ensures old(c.cur).chunkNext == old(c.chunkTop)
    {
      hide Step, SealStep, ShowsBlocks, ShowsCaches, HeadWritten;
      WriteSealed(c);
      StepIs(s, c, [], map[]);
      SealWrites(s, c);
      s := SealStep(s, c);
    }

    method DrawChunk(c: Cache, ghost leaving: bool) returns (head: Block)
      requires Shows() && Known(s, c) && s.pcs[c] == (if leaving then Leaving else Trimming)
      requires (leaving ==> c.cur == null) && c.chunkTop != null && c.chunkTop in s.mem
      modifies this`s, c
      ensures Shows() && s == Step(old(s), c, [], map[]) && Known(s, c)
              && s.pcs[c] == if leaving then LeavingPush(head) else Pushing(head)
      ensures s.mem == old(s.mem)
      ensures c.cur == old(c.cur) && c.chunkCount == old(c.chunkCount) - 1
      ensures head == old(c.chunkTop) && c.chunkTop == old(c.chunkTop.chunkNext) && c.curCount == old(c.curCount)
    {
      hide Step, ShowsBlocks, ShowsCaches, MoveBy;
      Read(c);
      head := c.chunkTop;
      ReadBlock(head);
      c.chunkTop := head.chunkNext;
      c.chunkCount := c.chunkCount - 1;
      CacheWritten(c);
      StepIs(s, c, [], map[]);
      s := DrawStep(s, c, leaving);
    }

    /** The two places a chunk is pushed from. */
    predicate OnItsWay(pc: Pc, head: Block, next: Pc) {
      (pc == Pushing(head) && next == Ready) || (pc == LeavingPush(head) && next == Leaving)
    }

    method PushChunk(head: Block, ghost c: Cache, ghost next: Pc)
      requires Shows() && Known(s, c) && OnItsWay(s.pcs[c], head, next) && head in s.mem
      modifies this`s, this`top, head
      ensures Shows() && s == Step(old(s), c, [], map[]) && Known(s, c) && s.pcs[c] == next
      ensures s.mem.Keys == old(s.mem.Keys)
      ensures top == head
    {
      hide Step, ShowsBlocks, ShowsCaches, MoveBy;
      ReadBlock(head);
      head.chunkNext := top;
      top := head;
      BlockWritten(head);
      assert s.fields[c := s.fields[c]] == s.fields;
      StepIs(s, c, [], map[]);
      s := PushStep(s, c, head, next);
    }

    method LiftCurrent(c: Cache) returns (head: Block)
      requires Shows() && Known(s, c) && s.pcs[c] == Leaving && c.cur != null && c.cur in s.mem
      modifies this`s, c, c.cur
      ensures Shows() && s == Step(old(s), c, [], map[]) && Known(s, c) && s.pcs[c] == LeavingPush(head)
      ensures c.cur == null && s.mem.Keys == old(s.mem.Keys)
    {
      hide Step, ShowsBlocks, ShowsCaches, MoveBy;
      Read(c);
      head := c.cur;
      ReadBlock(head);
      head.count := c.curCount;
      c.cur := null;
      c.curCount := 0;
      BlockWritten(head);
      CacheWritten(c);
      StepIs(s, c, [], map[]);
      s := LeaveStep(s, c);
    }

    /** The cache is gone. */
    ghost method Gone(c: Cache)
      requires Shows() && Known(s, c) && s.pcs[c] == Leaving && c.cur == null && c.chunkTop == null
      modifies this`s
      ensures Shows() && s == Step(old(s), c, [], map[]) && !Known(s, c) && s.mem == old(s.mem)
    {
      hide Step, ShowsBlocks;
      StepIs(s, c, [], map[]);
      s := LeaveStep(s, c);
    }

    /** What the code of a call relies on. */
    lemma Facts(c: Cache)
      requires Valid() && Known(s, c)
      ensures s.mem.Keys == s.v.where.Keys
      ensures c.cur != null ==> c.cur in s.mem
      ensures c.chunkTop != null ==> c.chunkTop in s.mem
      ensures top != null ==> top in s.mem
      ensures s.pcs[c].Loaded? || s.pcs[c].Sealing? ==> c.cur != null
      ensures s.pcs[c].Sealing? ==> c.curCount == CHUNK_SIZE
      ensures s.pcs[c].Trimming? ==> c.chunkTop != null
      ensures s.pcs[c].Ready? ==> c.curCount < CHUNK_SIZE
      ensures s.pcs[c].Carrying? || s.pcs[c].Pushing? || s.pcs[c].LeavingPush? ==> s.pcs[c].head in s.mem
    {
      hide Inv, ShowsBlocks;
      Ahead(s, c);
      AheadAt(s, c);
    }

    // ---------------------------------------------------------------- calls

    /** A call begins. */
    ghost method Begin(a: Action)
      requires Valid() && Enabled(s, a) && (a.Alloc? || a.Exit? || a.Stock?)
      modifies this`s
      ensures Valid() && s == Apply(old(s), a)
    {
      hide Inv, ShowsBlocks, ShowsCaches;
      ApplyKeepsInv(s, a);
      s := Apply(s, a);
    }

    /** The next step of `c`, before it is made. */
    ghost method GoOn(s0: State, acts: seq<Action>, c: Cache) returns (acts': seq<Action>)
      requires Valid() && Known(s, c) && s.pcs[c] != Ready && !s.pcs[c].Building? && Ran(s0, acts, s, c)
      requires s.pcs[c].Counting? ==> s.limit == 0 || s.made < s.limit
      ensures var z := Step(s, c, [], map[]);
        && Ran(s0, acts', z, c) && Inv(z) && !z.broken
        && Used(z.v) == (if s.pcs[c].Taking? then Used(s.v) + {s.pcs[c].b} else Used(s.v))
        && (s.pcs[c].Taking? ==> s.pcs[c].b !in Used(s.v))
    {
      hide Inv, Step, Ran, ShowsBlocks, ShowsCaches, MoveBy, Fresh, Used;
      GoesOn(s0, acts, s, c, [], map[]);
      acts' := acts + [Continue(c, [], map[])];
    }

    /** The pool is in order, with the thread `c` at `pc`, after the steps `acts`. */
    ghost predicate Came(s0: State, acts: seq<Action>, c: Cache, pc: Pc) reads this, s.mem.Keys, s.fields.Keys {
      Valid() && Ran(s0, acts, s, c) && Known(s, c) && s.pcs[c] == pc
    }

    /** The blocks in use are the same, and all new memory is fresh. */
    twostate predicate OnlyFresh() reads this {
      Used(s.v) == Used(old(s).v) && old(s.mem.Keys) <= s.mem.Keys && fresh(s.mem.Keys - old(s.mem.Keys))
    }

    /** No new chunk can be made. */
    predicate Exhausted() reads this {
      !CanMake(1, chunkCount, limit, heap)
    }

    /** Where `Alloc` looks for a block. */
    function Source(c: Cache): Block? reads this, c {
      if c.cur != null then c.cur else if c.chunkTop != null then c.chunkTop else top
    }

    /** `b` is the head of the current list, else of the top chunk of the cache, else of the top chunk of
        the shared stack, and only if there is none of them, of a new chunk. */
    twostate predicate GotFrom(c: Cache, new b: Block?) reads this, c {
      && (old(Source(c)) != null ==>
            b == old(Source(c)) && s.mem.Keys == old(s.mem.Keys) && chunkCount == old(chunkCount))
      && (old(Source(c)) == null ==> b != null && fresh(b) && chunkCount == old(chunkCount) + 1)
      && (old(c.cur != null || c.chunkTop != null) ==> top == old(top))
    }

    /** `NewChunk`; null where it breaks. */
    method NewChunk(ghost c: Cache, ghost stock: bool, ghost s0: State, ghost acts: seq<Action>)
      returns (head: Block?, ghost acts': seq<Action>)
      requires Came(s0, acts, c, Counting(stock))
      modifies this`s, this`chunkCount, this`heap
      ensures head == null <==> old(Exhausted())
      ensures head != null ==> Came(s0, acts', c, Onward(stock, head)) && OnlyFresh()
      ensures head != null ==> chunkCount == old(chunkCount) + 1 && heap == old(heap) - 1
      ensures head != null ==> fresh(head)
    {
      hide Inv, Step, Ran, ShowsBlocks, ShowsCaches, MoveBy, Fresh, Used;
      var ok;
      ok, acts' := CountOne(c, stock, s0, acts);
      if !ok || heap == 0 { return null, acts'; }
      heap := heap - 1;
      head, acts' := FinishChunk(c, stock, s0, acts');
    }

    method CountOne(ghost c: Cache, ghost stock: bool, ghost s0: State, ghost acts: seq<Action>)
      returns (ok: bool, ghost acts': seq<Action>)
      requires Came(s0, acts, c, Counting(stock))
      modifies this`s, this`chunkCount
      ensures ok <==> limit == 0 || old(chunkCount) < limit
      ensures ok ==> Came(s0, acts', c, Building(stock)) && Used(s.v) == old(Used(s.v))
      ensures s.mem == old(s.mem) && chunkCount == old(chunkCount) + 1
    {
      hide Inv, Step, Ran, ShowsBlocks, ShowsCaches, MoveBy, Fresh, Used;
      acts' := acts;
      if limit == 0 || chunkCount < limit {
        acts' := GoOn(s0, acts', c);
      }
      ok := CountChunk(c, stock);
    }

    method FinishChunk(ghost c: Cache, ghost stock: bool, ghost s0: State, ghost acts: seq<Action>)
      returns (head: Block, ghost acts': seq<Action>)
      requires Came(s0, acts, c, Building(stock))
      modifies this`s
      ensures Came(s0, acts', c, Onward(stock, head)) && OnlyFresh()
      ensures fresh(head)
    {
      hide Inv, Step, Ran, ShowsBlocks, ShowsCaches, MoveBy, Fresh, Used;
      ghost var z, new' := s, [];
      Ahead(z, c);
      head, new' := BuildChunk(c, stock);
      GoesOn(s0, acts, z, c, new', CellsOf(new'));
      acts' := acts + [Continue(c, new', CellsOf(new'))];
    }

    /** `PopChunk`; null where no chunk can be made. */
    method PopChunk(ghost c: Cache, ghost s0: State, ghost acts: seq<Action>)
      returns (head: Block?, ghost acts': seq<Action>)
      requires Came(s0, acts, c, Popping)
      modifies this`s, this`top, this`chunkCount, this`heap
      ensures head == null <==> old(top == null && Exhausted())
      ensures head != null ==> Came(s0, acts', c, Carrying(head)) && OnlyFresh()
      ensures head != null ==>
              if old(top) != null then head == old(top) && s.mem == old(s.mem) && chunkCount == old(chunkCount)
              else fresh(head) && chunkCount == old(chunkCount) + 1
    {
      hide Valid, Ran, Used;
      if top != null {
        head, acts' := PopShared(c, s0, acts);
      } else {
        acts' := PassEmpty(c, s0, acts);
        head, acts' := NewChunk(c, false, s0, acts');
      }
    }

    /** `PopChunk`, where the stack is not empty. */
    method PopShared(ghost c: Cache, ghost s0: State, ghost acts: seq<Action>)
      returns (head: Block, ghost acts': seq<Action>)
      requires Came(s0, acts, c, Popping) && top != null
      modifies this`s, this`top
      ensures Came(s0, acts', c, Carrying(head)) && OnlyFresh()
      ensures head == old(top) && s.mem == old(s.mem)
    {
      hide Inv, Step, Ran, ShowsBlocks, ShowsCaches, MoveBy, Fresh, Used;
      Facts(c);
      acts' := GoOn(s0, acts, c);
      head := PopTop(c);
    }

    /** `PopChunk`, where the stack is empty, up to the call of `NewChunk`. */
    ghost method PassEmpty(c: Cache, s0: State, acts: seq<Action>) returns (acts': seq<Action>)
      requires Came(s0, acts, c, Popping) && top == null
      modifies this`s
      ensures Came(s0, acts', c, Counting(false)) && OnlyFresh()
    {
      hide Inv, Step, Ran, ShowsBlocks, ShowsCaches, MoveBy, Fresh, Used;
      acts' := GoOn(s0, acts, c);
      FindEmpty(c);
    }

    /** `Refill`; false where no chunk can be made. */
    method Refill(c: Cache, ghost s0: State, ghost acts: seq<Action>) returns (ok: bool, ghost acts': seq<Action>)
      requires Came(s0, acts, c, Refilling) && c.cur == null
      modifies this`s, this`top, this`chunkCount, this`heap, c
      ensures !ok <==> old(c.chunkTop == null && top == null && Exhausted())
      ensures ok ==> Came(s0, acts', c, Loaded) && OnlyFresh()
      ensures ok ==> GotFrom(c, c.cur)
    {
      hide Valid, Ran, ShowsBlocks, ShowsCaches, Used;
      ok := true;
      if c.chunkTop != null {
        acts' := RefillFromCache(c, s0, acts);
      } else {
        acts' := GoPast(c, s0, acts);
        ok, acts' := RefillFromPool(c, s0, acts');
      }
    }

    /** The first branch of `Refill`, and its end. */
    method RefillFromCache(c: Cache, ghost s0: State, ghost acts: seq<Action>) returns (ghost acts': seq<Action>)
      requires Came(s0, acts, c, Refilling) && c.cur == null && c.chunkTop != null
      modifies this`s, c
      ensures Came(s0, acts', c, Loaded) && OnlyFresh()
      ensures c.cur == old(c.chunkTop) && s.mem == old(s.mem)
    {
      hide Inv, Step, Ran, ShowsBlocks, ShowsCaches, MoveBy, Fresh, Used;
      Facts(c);
      acts' := GoOn(s0, acts, c);
      TakeCached(c);
    }

    /** The tests of `Alloc` and `Refill`, where they do nothing. */
    ghost method GoPast(c: Cache, s0: State, acts: seq<Action>) returns (acts': seq<Action>)
      requires Came(s0, acts, c, Refilling) && (c.cur != null || c.chunkTop == null)
      modifies this`s
      ensures Came(s0, acts', c, if c.cur != null then Loaded else Popping) && OnlyFresh()
      ensures s.mem == old(s.mem)
    {
      hide Inv, Step, Ran, ShowsBlocks, ShowsCaches, MoveBy, Fresh, Used;
      Read(c);
      acts' := GoOn(s0, acts, c);
      Decide(c);
    }

    /** The second branch of `Refill`, and its end. */
    method RefillFromPool(c: Cache, ghost s0: State, ghost acts: seq<Action>)
      returns (ok: bool, ghost acts': seq<Action>)
      requires Came(s0, acts, c, Popping)
      modifies this`s, this`top, this`chunkCount, this`heap, c
      ensures !ok <==> old(top == null && Exhausted())
      ensures ok ==> Came(s0, acts', c, Loaded) && OnlyFresh()
      ensures ok ==>
              if old(top) != null then c.cur == old(top) && s.mem == old(s.mem) && chunkCount == old(chunkCount)
              else c.cur != null && fresh(c.cur) && chunkCount == old(chunkCount) + 1
    {
      hide Came, Used;
      var head: Block?;
      head, acts' := PopChunk(c, s0, acts);
      ok := head != null;
      if ok {
        acts' := InstallOne(c, head, s0, acts');
      }
    }

    method InstallOne(c: Cache, head: Block, ghost s0: State, ghost acts: seq<Action>)
      returns (ghost acts': seq<Action>)
      requires Came(s0, acts, c, Carrying(head))
      modifies this`s, c
      ensures Came(s0, acts', c, Loaded) && c.cur == head
      ensures s.mem == old(s.mem) && Used(s.v) == old(Used(s.v))
    {
      hide Inv, Step, Ran, ShowsBlocks, ShowsCaches, MoveBy, Fresh, Used;
      Facts(c);
      acts' := GoOn(s0, acts, c);
      Install(c, head);
    }

    method TakeHead(c: Cache, ghost s0: State, ghost acts: seq<Action>) returns (b: Block, ghost acts': seq<Action>)
      requires Came(s0, acts, c, Loaded)
      modifies this`s, c
      ensures Came(s0, acts', c, Taking(b)) && s.mem == old(s.mem) && Used(s.v) == old(Used(s.v))
      ensures b == old(c.cur)
    {
      hide Inv, Step, Ran, ShowsBlocks, ShowsCaches, MoveBy, Fresh, Used;
      Facts(c);
      acts' := GoOn(s0, acts, c);
      b := Unlink(c);
    }

    method HandOut(ghost c: Cache, b: Block, ghost s0: State, ghost acts: seq<Action>)
      returns (ghost acts': seq<Action>)
      requires Came(s0, acts, c, Taking(b)) && b in s.mem
      modifies this`s, b
      ensures Came(s0, acts', c, Ready) && s.mem.Keys == old(s.mem.Keys)
      ensures b in s.mem && b.useFlag == 1
      ensures b !in old(Used(s.v)) && Used(s.v) == old(Used(s.v)) + {b}
    {
      hide Inv, Step, Ran, ShowsBlocks, ShowsCaches, MoveBy, Fresh, Used;
      AheadHeld(s, c);
      ReadBlock(b);
      acts' := GoOn(s0, acts, c);
      var ok := ValidateAlloc(c, b);
      assert ok;                                     // it does not break
    }

    /** `Alloc` behind its refill. */
    method Serve(c: Cache, ghost s0: State, ghost acts: seq<Action>) returns (b: Block, ghost acts': seq<Action>)
      requires Came(s0, acts, c, Loaded)
      modifies this`s, c, s.mem.Keys
      ensures Came(s0, acts', c, Ready) && s.mem.Keys == old(s.mem.Keys)
      ensures b in s.mem && b.useFlag == 1
      ensures b !in old(Used(s.v)) && Used(s.v) == old(Used(s.v)) + {b}
      ensures b == old(c.cur)
    {
      hide Inv, Ran, ShowsBlocks, ShowsCaches, Used;
      b, acts' := TakeHead(c, s0, acts);
      AheadHeld(s, c);
      acts' := HandOut(c, b, s0, acts');
    }

    /** The first line of `Alloc` and what it calls. */
    method Load(c: Cache, ghost s0: State, ghost acts: seq<Action>) returns (ok: bool, ghost acts': seq<Action>)
      requires Came(s0, acts, c, Refilling)
      modifies this`s, this`top, this`chunkCount, this`heap, c
      ensures !ok <==> old(c.cur == null && c.chunkTop == null && top == null && Exhausted())
      ensures ok ==> Came(s0, acts', c, Loaded) && OnlyFresh()
      ensures ok ==> GotFrom(c, c.cur)
    {
      hide Inv, Step, Ran, ShowsBlocks, ShowsCaches, MoveBy, Fresh, Used;
      ok := true;
      if c.cur == null {
        ok, acts' := Refill(c, s0, acts);
      } else {
        acts' := GoPast(c, s0, acts);
      }
    }

    /** `Alloc`, begun. */
    method LoadAndServe(c: Cache, ghost s0: State, ghost acts: seq<Action>)
      returns (b: Block?, ghost acts': seq<Action>)
      requires Came(s0, acts, c, Refilling)
      modifies this`s, this`top, this`chunkCount, this`heap, c, s.mem.Keys
      ensures b == null <==> old(c.cur == null && c.chunkTop == null && top == null && Exhausted())
      ensures b != null ==> Came(s0, acts', c, Ready)
      ensures b != null ==> b in s.mem && b.useFlag == 1 && b !in old(Used(s.v)) && Used(s.v) == old(Used(s.v)) + {b}
      ensures b != null ==> old(s.mem.Keys) <= s.mem.Keys && fresh(s.mem.Keys - old(s.mem.Keys))
      ensures b != null ==> GotFrom(c, b)
    {
      hide Valid, Ran, Used, Came;
      var ok;
      ok, acts' := Load(c, s0, acts);
      if !ok { return null, acts'; }
      b, acts' := Serve(c, s0, acts');
    }

    /** `Alloc`: a block that nobody uses; null where no chunk can be made. */
    method Alloc(c: Cache) returns (b: Block?, ghost acts: seq<Action>)
      requires Valid() && Known(s, c) && s.pcs[c] == Ready
      modifies this`s, this`top, this`chunkCount, this`heap, c, s.mem.Keys
      ensures b == null <==> old(c.cur == null && c.chunkTop == null && top == null && Exhausted())
      ensures b != null ==> Came(Calls(old(s), c, Refilling), acts, c, Ready)
      ensures b != null ==> b in s.mem && b.useFlag == 1 && b !in old(Used(s.v)) && Used(s.v) == old(Used(s.v)) + {b}
      ensures b != null ==> old(s.mem.Keys) <= s.mem.Keys && fresh(s.mem.Keys - old(s.mem.Keys))
      ensures b != null ==> GotFrom(c, b)
    {
      hide Valid, Ran, Used, Came;
      BeginAlloc(c);
      acts := [];
      b, acts := LoadAndServe(c, s, acts);
    }

    ghost method BeginAlloc(c: Cache)
      requires Valid() && Known(s, c) && s.pcs[c] == Ready
      modifies this`s
      ensures s == Calls(old(s), c, Refilling) && Came(s, [], c, Refilling)
    {
      hide Inv, Step, Ran, ShowsBlocks, ShowsCaches, MoveBy, Fresh, Used;
      Begin(Action.Alloc(c));
      RanNothing(s, c);
    }

    /** The full list with head `b` is on top of the cache, which had `chunkTop` and `count` before, or,
        where the cache had ten chunks already, of the shared stack. */
    twostate predicate GaveBack(c: Cache, b: Block?, chunkTop: Block?, count: int) reads this, c {
      && c.cur == null && c.curCount == 0
      && if count < TLS_MAX_CHUNKS then c.chunkTop == b && c.chunkCount == count + 1 && top == old(top)
         else top == b && c.chunkTop == chunkTop && c.chunkCount == count
    }

    /** `Seal`. */
    method Seal(c: Cache, ghost s0: State, ghost acts: seq<Action>) returns (ghost acts': seq<Action>)
      requires Came(s0, acts, c, Sealing)
      requires c.cur != null
      modifies this`s, this`top, c, s.mem.Keys
      ensures Came(s0, acts', c, Ready) && s.mem.Keys == old(s.mem.Keys) && Used(s.v) == old(Used(s.v))
      ensures GaveBack(c, old(c.cur), old(c.chunkTop), old(c.chunkCount))
    {
      hide Inv, Step, Ran, ShowsBlocks, ShowsCaches, MoveBy, Fresh, Used;
      Facts(c);
      acts' := GoOn(s0, acts, c);
      SealCurrent(c);
      Read(c);
      if c.chunkCount > TLS_MAX_CHUNKS {
        acts' := GiveAway(c, s0, acts');
      }
    }

    /** The end of `Seal`. */
    method GiveAway(c: Cache, ghost s0: State, ghost acts: seq<Action>) returns (ghost acts': seq<Action>)
      requires Came(s0, acts, c, Trimming)
      requires c.chunkTop != null
      modifies this`s, this`top, c, s.mem.Keys
      ensures Came(s0, acts', c, Ready) && s.mem.Keys == old(s.mem.Keys) && Used(s.v) == old(Used(s.v))
      ensures top == old(c.chunkTop) && c.chunkTop == old(c.chunkTop.chunkNext)
      ensures c.cur == old(c.cur) && c.curCount == old(c.curCount) && c.chunkCount == old(c.chunkCount) - 1
    {
      hide Inv, Ran, ShowsBlocks, ShowsCaches, Used;
      var head;
      Facts(c);
      head, acts' := DrawOne(c, false, s0, acts);
      acts' := PushOne(c, head, s0, acts', Pushing(head), Ready);
    }

    method DrawOne(c: Cache, ghost leaving: bool, ghost s0: State, ghost acts: seq<Action>)
      returns (head: Block, ghost acts': seq<Action>)
      requires Came(s0, acts, c, if leaving then Leaving else Trimming) && c.chunkTop != null
      requires leaving ==> c.cur == null
      modifies this`s, c
      ensures Came(s0, acts', c, if leaving then LeavingPush(head) else Pushing(head))
      ensures c.cur == old(c.cur) && c.chunkCount == old(c.chunkCount) - 1
      ensures s.mem == old(s.mem) && Used(s.v) == old(Used(s.v))
      ensures head == old(c.chunkTop) && c.chunkTop == old(c.chunkTop.chunkNext) && c.curCount == old(c.curCount)
    {
      hide Inv, Step, Ran, ShowsBlocks, ShowsCaches, MoveBy, Fresh, Used;
      Facts(c);
      acts' := GoOn(s0, acts, c);
      head := DrawChunk(c, leaving);
    }

    method PushOne(ghost c: Cache, head: Block, ghost s0: State, ghost acts: seq<Action>, ghost pc: Pc, ghost next: Pc)
      returns (ghost acts': seq<Action>)
      requires Came(s0, acts, c, pc) && OnItsWay(pc, head, next)
      modifies this`s, this`top, s.mem.Keys
      ensures Came(s0, acts', c, next) && s.mem.Keys == old(s.mem.Keys) && Used(s.v) == old(Used(s.v))
      ensures top == head
    {
      hide Inv, Step, Ran, ShowsBlocks, ShowsCaches, MoveBy, Fresh, Used;
      Facts(c);
      acts' := GoOn(s0, acts, c);
      PushChunk(head, c, next);
    }

    /** `Free` behind its validation. */
    method TakeBack(c: Cache, b: Block, ghost s0: State, ghost acts: seq<Action>) returns (ghost acts': seq<Action>)
      requires Came(s0, acts, c, Giving(b)) && b in s.mem
      requires c.curCount < CHUNK_SIZE
      modifies this`s, this`top, c, s.mem.Keys
      ensures Came(s0, acts', c, Ready) && s.mem.Keys == old(s.mem.Keys) && Used(s.v) == old(Used(s.v))
      ensures
              if old(c.curCount) + 1 < CHUNK_SIZE then
                && c.cur == b && c.curCount == old(c.curCount) + 1 && top == old(top)
                && c.chunkTop == old(c.chunkTop) && c.chunkCount == old(c.chunkCount)
              else GaveBack(c, b, old(c.chunkTop), old(c.chunkCount))
    {
      hide Inv, Step, Ran, ShowsBlocks, ShowsCaches, MoveBy, Fresh, Used;
      Read(c);
      acts' := GoOn(s0, acts, c);
      LinkBack(c, b);
      Read(c);
      if c.curCount == CHUNK_SIZE {
        acts' := Seal(c, s0, acts');
      }
    }

    /** The beginning of `Free`. */
    method Reclaim(c: Cache, b: Block) returns (ok: bool)
      requires Valid() && Known(s, c) && s.pcs[c] == Ready && (b.owner == this ==> b in s.mem)
      modifies this`s, s.mem.Keys
      ensures ok <==> b in old(Used(s.v))
      ensures ok ==> Came(FreeStep(old(s), c, b), [], c, Giving(b)) && s == FreeStep(old(s), c, b)
      ensures ok ==> s.mem.Keys == old(s.mem.Keys) && b in s.mem && c.curCount < CHUNK_SIZE
      ensures ok ==> Used(s.v) == old(Used(s.v)) - {b}
    {
      hide Inv, Step, Ran, ShowsBlocks, ShowsCaches, MoveBy, Fresh, Used;
      Facts(c);
      FreeTells(s, c, b);
      ok := ValidateFree(c, b);
      if ok {
        RanNothing(s, c);
      }
    }

    /** `Free`; false where it breaks: the block is not this pool's, or is not in use. */
    method Free(c: Cache, b: Block) returns (ok: bool, ghost acts: seq<Action>)
      requires Valid() && Known(s, c) && s.pcs[c] == Ready && (b.owner == this ==> b in s.mem)
      modifies this`s, this`top, c, s.mem.Keys
      ensures ok <==> b in old(Used(s.v))
      ensures ok ==> Came(FreeStep(old(s), c, b), acts, c, Ready) && s.mem.Keys == old(s.mem.Keys) && b in s.mem
      ensures ok ==> Used(s.v) == old(Used(s.v)) - {b}
      ensures ok ==>
              if old(c.curCount) + 1 < CHUNK_SIZE then
                && c.cur == b && c.curCount == old(c.curCount) + 1 && top == old(top)
                && c.chunkTop == old(c.chunkTop) && c.chunkCount == old(c.chunkCount)
              else GaveBack(c, b, old(c.chunkTop), old(c.chunkCount))
    {
      hide Valid, Ran, Shows, Used, FreeStep;
      acts := [];
      ok := Reclaim(c, b);
      if ok {
        acts := TakeBack(c, b, s, acts);
      }
    }

    // ---------------------------------------------------------------- threads and the pool itself

    /** A pool without blocks. */
    constructor (maxBlocks: nat, heap: nat)
      ensures Valid() && Init(s) && limit == ChunksFor(maxBlocks) && this.heap == heap
    {
      top := null;
      chunkCount := 0;
      this.heap := heap;
      limit := ChunksFor(maxBlocks);
      s := State(Layout(map[], map[], map[], 0), map[], map[], map[], null, 0, ChunksFor(maxBlocks), false);
      new;
      InitInv(s);
    }

    /** One turn of the loop of the pool's constructor; false where it breaks. */
    method StockChunk(ghost c: Cache) returns (ok: bool, ghost acts: seq<Action>)
      requires Valid() && Known(s, c) && s.pcs[c] == Ready && c.cur == null && c.chunkTop == null
      modifies this`s, this`top, this`chunkCount, this`heap, s.mem.Keys
      ensures Enabled(old(s), Stock(c))
      ensures ok <==> !old(Exhausted())
      ensures ok ==> Came(Calls(old(s), c, Counting(true)), acts, c, Ready) && OnlyFresh()
      ensures ok ==> chunkCount == old(chunkCount) + 1 && heap == old(heap) - 1
    {
      hide Inv, Step, Ran, ShowsBlocks, ShowsCaches, MoveBy, Fresh, Used;
      Read(c);
      Begin(Stock(c));
      acts := [];
      RanNothing(s, c);
      ok, acts := StockOne(c, s, acts);
    }

    method StockOne(ghost c: Cache, ghost s0: State, ghost acts: seq<Action>)
      returns (ok: bool, ghost acts': seq<Action>)
      requires Came(s0, acts, c, Counting(true))
      modifies this`s, this`top, this`chunkCount, this`heap, s.mem.Keys
      ensures ok <==> !old(Exhausted())
      ensures ok ==> Came(s0, acts', c, Ready) && OnlyFresh()
      ensures ok ==> chunkCount == old(chunkCount) + 1 && heap == old(heap) - 1
    {
      hide Valid, Ran, Used;
      var head;
      head, acts' := NewChunk(c, true, s0, acts);
      ok := head != null;
      if ok {
        acts' := PushOne(c, head, s0, acts', Pushing(head), Ready);
      }
    }

    /** `c` has made whole calls, alone. */
    ghost predicate Rests(s0: State, acts: seq<Action>, c: Cache) reads this, s.mem.Keys, s.fields.Keys {
      Valid() && Alone(s0, acts, s, c) && Known(s, c) && s.pcs[c] == Ready
    }

    method StockNext(ghost c: Cache, ghost s0: State, ghost acts: seq<Action>)
      returns (ok: bool, ghost acts': seq<Action>)
      requires Rests(s0, acts, c) && c.cur == null && c.chunkTop == null
      modifies this`s, this`top, this`chunkCount, this`heap, s.mem.Keys
      ensures ok <==> !old(Exhausted())
      ensures ok ==> Rests(s0, acts', c) && OnlyFresh() && chunkCount == old(chunkCount) + 1 && heap == old(heap) - 1
    {
      hide Valid, Enabled, Apply, Ran, Alone, Used;
      ghost var z, more := s, [];
      ok, more := StockChunk(c);
      if ok {
        AloneOn(s0, acts, z, c, more, s);
        acts' := acts + [Stock(c)] + more;
      } else {
        acts' := acts;
      }
    }

    /** The loop of the pool's constructor; false where it breaks. */
    method Prefill(ghost c: Cache, initialBlocks: nat) returns (ok: bool, ghost acts: seq<Action>)
      requires Valid() && Known(s, c) && s.pcs[c] == Ready && c.cur == null && c.chunkTop == null
      modifies this`s, this`top, this`chunkCount, this`heap, s.mem.Keys
      ensures ok <==> CanMake(ChunksFor(initialBlocks), old(chunkCount), limit, old(heap))
      ensures ok ==> Rests(old(s), acts, c) && OnlyFresh() && chunkCount == old(chunkCount) + ChunksFor(initialBlocks)
    {
      hide Valid, Alone, Used;
      AloneNothing(s, c);
      acts := [];
      ok := true;
      var i, n := 0, ChunksFor(initialBlocks);
      while i < n
        invariant 0 <= i <= n && Rests(old(s), acts, c)
        invariant OnlyFresh() && chunkCount == old(chunkCount) + i
        invariant (i == 0 || limit == 0 || chunkCount <= limit) && heap == old(heap) - i >= 0
      {
        ok, acts := StockNext(c, old(s), acts);
        if !ok { return; }
        i := i + 1;
      }
    }

    /** A thread gets its cache. */
    method ThreadStart() returns (c: Cache)
      requires Valid()
      modifies this`s
      ensures fresh(c) && c.cur == null && c.chunkTop == null
      ensures Valid() && s == StartStep(old(s), c) && Known(s, c) && s.pcs[c] == Ready
      ensures s.mem == old(s.mem) && Used(s.v) == old(Used(s.v))
    {
      hide Inv, Ran, ShowsBlocks, Used;
      c := new Cache();
      Starts(s, c);
      s := StartStep(s, c);
    }

    /** A new pool with its initial blocks, and the cache of the thread that makes it; false where it
        breaks.  The pool has reached this state from the empty one. */
    static method Create(initialBlocks: nat, maxBlocks: nat, heap: nat)
      returns (ok: bool, p: Pool, c: Cache, ghost acts: seq<Action>)
      ensures ok <==> CanMake(ChunksFor(initialBlocks), 0, ChunksFor(maxBlocks), heap)
      ensures ok ==> p.Valid() && Known(p.s, c) && p.s.pcs[c] == Ready && Used(p.s.v) == {}
      ensures ok ==> p.chunkCount == ChunksFor(initialBlocks) && exists s0 :: Reached(s0, acts, p.s)
    {
      hide Inv, Enabled, Apply, Ran, Alone, Used, Reached;
      p := new Pool(maxBlocks, heap);
      ghost var s0 := p.s;
      NothingUsed(s0);
      c := p.ThreadStart();
      StartReached(s0, c);
      ghost var s1, more := p.s, [];
      ok, more := p.Prefill(c, initialBlocks);
      acts := [Start(c)] + more;
      if ok {
        ReachedOn(s0, [Start(c)], s1, more, p.s, c);
      }
    }

    /** The cache destructor, for the current list up to its push. */
    method LiftOne(c: Cache, ghost s0: State, ghost acts: seq<Action>) returns (head: Block, ghost acts': seq<Action>)
      requires Came(s0, acts, c, Leaving) && c.cur != null
      modifies this`s, c, s.mem.Keys
      ensures Came(s0, acts', c, LeavingPush(head)) && c.cur == null
      ensures s.mem.Keys == old(s.mem.Keys) && Used(s.v) == old(Used(s.v))
    {
      hide Inv, Step, Ran, ShowsBlocks, ShowsCaches, MoveBy, Fresh, Used;
      Facts(c);
      acts' := GoOn(s0, acts, c);
      head := LiftCurrent(c);
    }

    /** The cache destructor, for the current list. */
    method GiveCurrent(c: Cache, ghost s0: State, ghost acts: seq<Action>) returns (ghost acts': seq<Action>)
      requires Came(s0, acts, c, Leaving) && c.cur != null
      modifies this`s, this`top, c, s.mem.Keys
      ensures Came(s0, acts', c, Leaving) && c.cur == null && s.mem.Keys == old(s.mem.Keys)
      ensures Used(s.v) == old(Used(s.v))
    {
      hide Inv, Ran, ShowsBlocks, ShowsCaches, Used;
      var head;
      head, acts' := LiftOne(c, s0, acts);
      acts' := PushOne(c, head, s0, acts', LeavingPush(head), Leaving);
    }

    /** One turn of the loop of the cache destructor. */
    method GiveChunk(c: Cache, ghost s0: State, ghost acts: seq<Action>) returns (ghost acts': seq<Action>)
      requires Came(s0, acts, c, Leaving) && c.cur == null && c.chunkTop != null
      modifies this`s, this`top, c, s.mem.Keys
      ensures Came(s0, acts', c, Leaving) && c.cur == null && c.chunkCount == old(c.chunkCount) - 1
      ensures s.mem.Keys == old(s.mem.Keys) && Used(s.v) == old(Used(s.v))
    {
      hide Inv, Ran, ShowsBlocks, ShowsCaches, Used;
      var head;
      head, acts' := DrawOne(c, true, s0, acts);
      acts' := PushOne(c, head, s0, acts', LeavingPush(head), Leaving);
    }

    /** The cache destructor. */
    method ThreadExit(c: Cache) returns (ghost acts: seq<Action>)
      requires Valid() && Known(s, c) && s.pcs[c] == Ready
      modifies this`s, this`top, c, s.mem.Keys
      ensures Valid() && Ran(Calls(old(s), c, Leaving), acts, s, c) && !Known(s, c)
      ensures s.mem.Keys == old(s.mem.Keys) && Used(s.v) == old(Used(s.v))
    {
      hide Inv, Step, Ran, ShowsBlocks, ShowsCaches, MoveBy, Fresh, Used;
      Begin(Exit(c));
      ghost var s0 := s;
      acts := [];
      RanNothing(s, c);
      if c.cur != null {
        acts := GiveCurrent(c, s0, acts);
      }
      while c.chunkTop != null
        invariant Came(s0, acts, c, Leaving) && c.cur == null
        invariant s.mem.Keys == old(s.mem.Keys) && Used(s.v) == old(Used(s.v))
        decreases c.chunkCount
      {
        ChunksLeft(c);
        acts := GiveChunk(c, s0, acts);
      }
      acts := Finish(c, s0, acts);
    }

    ghost method Finish(c: Cache, s0: State, acts: seq<Action>) returns (acts': seq<Action>)
      requires Came(s0, acts, c, Leaving) && c.cur == null && c.chunkTop == null
      modifies this`s
      ensures Valid() && Ran(s0, acts', s, c) && !Known(s, c) && s.mem.Keys == old(s.mem.Keys)
      ensures Used(s.v) == old(Used(s.v))
    {
      hide Inv, Step, Ran, ShowsBlocks, ShowsCaches, MoveBy, Fresh, Used;
      Read(c);
      acts' := GoOn(s0, acts, c);
      Gone(c);
    }

    lemma ChunksLeft(c: Cache)
      requires Valid() && Known(s, c) && c.chunkTop != null
      ensures c.chunkCount > 0
    {
      hide Inv, ShowsBlocks, See;
      KnownIsIn(s, c);
      ThreadOf(s, c);
      HasChunks(s, c);
    }

    /** All blocks there are, between calls. */
    method GetCapacityCount() returns (r: nat)
      requires Valid()
      ensures Builders(s.pcs) == {} ==> r == |s.mem|
    {
      hide Sized, ThreadInv, Placed, Named, Linked, Flagged, Headed;
      r := chunkCount * CHUNK_SIZE;
      SameSize(s.mem, s.v.where);
    }
  }
}
