/** Runs of the memory pool in which only one thread moves, and what the code of a call relies on. */
module PoolCalls {
  import opened PoolLayout
  import opened PoolMemory
  import opened PoolMachine
  import opened PoolMoves
  import opened PoolSteps
  import opened PoolRuns

  /** Only `c` moved from `s0` to `s`. */
  ghost predicate Alone(s0: State, acts: seq<Action>, s: State, c: Cache) {
    Legal(s0, acts) && Run(s0, acts) == s && forall i :: 0 <= i < |acts| ==> acts[i].c == c
  }

  /** Only `c` moved from `s0` to `s`, and began no other call. */
  ghost predicate Ran(s0: State, acts: seq<Action>, s: State, c: Cache) {
    Alone(s0, acts, s, c) && forall i :: 0 <= i < |acts| ==> acts[i].Continue?
  }

  lemma RanNothing(s: State, c: Cache)
    ensures Ran(s, [], s, c)
  {
  }

  /** One more step of `c`. */
  lemma Goes(s0: State, acts: seq<Action>, s: State, c: Cache, a: Action)
    requires Ran(s0, acts, s, c) && Inv(s) && Enabled(s, a) && a.c == c && a.Continue? && !Breaks(s, a)
    ensures Ran(s0, acts + [a], Apply(s, a), c) && Inv(Apply(s, a)) && !Apply(s, a).broken
  {
    hide Enabled, Apply, Inv, Breaks;
    assert [a][1..] == [];
    RunsOn(s0, acts, [a]);
    ApplyKeepsInv(s, a);
  }

  lemma GoesOn(s0: State, acts: seq<Action>, s: State, c: Cache, new': seq<Block>, cells: Cells)
    requires Ran(s0, acts, s, c) && Inv(s) && Known(s, c) && s.pcs[c] != Ready && !s.broken
    requires s.pcs[c].Building? ==> new' != [] && Fresh(s, new', cells)
    requires s.pcs[c].Counting? ==> s.limit == 0 || s.made < s.limit
    ensures Ran(s0, acts + [Continue(c, new', cells)], Step(s, c, new', cells), c)
    ensures Inv(Step(s, c, new', cells)) && !Step(s, c, new', cells).broken
    ensures Used(Step(s, c, new', cells).v) == if s.pcs[c].Taking? then Used(s.v) + {s.pcs[c].b} else Used(s.v)
    ensures s.pcs[c].Taking? ==> s.pcs[c].b !in Used(s.v)
  {
    hide Inv, Step, Ran, Fresh, Used;
    Goes(s0, acts, s, c, Continue(c, new', cells));
    ContinueStatus(s, c, new', cells);
  }

  /** A free that does not break. */
  lemma FreeTells(s: State, c: Cache, b: Block)
    requires Inv(s) && Known(s, c) && s.pcs[c] == Ready && !s.broken
    ensures b in Used(s.v) <==> b in s.mem && s.mem[b].useFlag == 1
    ensures b in Used(s.v) ==>
              Inv(FreeStep(s, c, b)) && !FreeStep(s, c, b).broken
              && Used(FreeStep(s, c, b).v) == Used(s.v) - {b}
  {
    hide Inv, FreeStep;
    MemoryIsKnown(s);
    if b in s.mem {
      FlagTells(s, b);
      if b in Used(s.v) {
        ApplyKeepsInv(s, Free(c, b));
        FreedView(s, c, b);
        UnmarkUsed(s.v, c, b);
      }
    }
  }

  lemma AloneNothing(s: State, c: Cache)
    ensures Alone(s, [], s, c)
  {
  }

  lemma {:induction false} RunsOn(s0: State, acts: seq<Action>, more: seq<Action>)
    requires Legal(s0, acts) && Legal(Run(s0, acts), more)
    ensures Legal(s0, acts + more) && Run(s0, acts + more) == Run(Run(s0, acts), more)
    decreases |acts|
  {
    hide Enabled, Apply;
    if acts == [] {
      assert acts + more == more;
    } else {
      assert (acts + more)[1..] == acts[1..] + more;
      RunsOn(Apply(s0, acts[0]), acts[1..], more);
    }
  }

  /** What a thread does alone goes on with any run. */
  lemma ReachedOn(s0: State, acts: seq<Action>, s: State, more: seq<Action>, s': State, c: Cache)
    requires Reached(s0, acts, s) && Alone(s, more, s', c) && !s'.broken
    ensures Reached(s0, acts + more, s')
  {
    RunsOn(s0, acts, more);
  }

  /** One more call of `c`. */
  lemma AloneOn(s0: State, acts: seq<Action>, s: State, c: Cache, more: seq<Action>, s': State)
    requires Alone(s0, acts, s, c) && Enabled(s, Stock(c)) && Ran(Calls(s, c, Counting(true)), more, s', c)
    ensures Alone(s0, acts + [Stock(c)] + more, s', c)
  {
    hide Enabled;
    var call := [Stock(c)] + more;
    assert call[1..] == more;
    RunsOn(s0, acts, call);
    assert acts + call == acts + [Stock(c)] + more;
  }

  lemma FreedView(s: State, c: Cache, b: Block)
    requires Known(s, c) && b in s.mem && s.mem[b].useFlag == 1
    ensures FreeStep(s, c, b).v == Unmarked(s.v, c, b)
  {
  }

  /** The other threads stay where they are. */
  lemma {:induction false} OthersWait(s0: State, acts: seq<Action>, s: State, c: Cache, d: Cache)
    requires Alone(s0, acts, s, c) && d != c && Known(s0, d)
    ensures SameThread(s0, s, d)
    decreases |acts|
  {
    hide Enabled, Apply;
    if acts != [] {
      var s1 := Apply(s0, acts[0]);
      OneWaits(s0, acts[0], c, d);
      forall i | 0 <= i < |acts[1..]| ensures acts[1..][i].c == c {
        assert acts[1..][i] == acts[i + 1];
      }
      OthersWait(s1, acts[1..], s, c, d);
    }
  }

  lemma OneWaits(s: State, a: Action, c: Cache, d: Cache)
    requires Enabled(s, a) && a.c == c && d != c && Known(s, d)
    ensures SameThread(s, Apply(s, a), d)
  {
    hide MoveBy, Fresh;
  }

  /** What the steps of the code rely on. */
  lemma Ahead(s: State, c: Cache)
    requires Inv(s) && Known(s, c)
    ensures c in s.v.depth && s.mem.Keys == s.v.where.Keys
    ensures s.fields[c].cur != null ==> s.fields[c].cur in s.mem
    ensures s.fields[c].chunkTop != null ==> s.fields[c].chunkTop in s.mem
    ensures s.top != null ==> s.top in s.mem
  {
    hide Represented, Sized, See, Builders, Head, TopCommon;
    KnownIsIn(s, c);
    ThreadOf(s, c);
    MemoryIsKnown(s);
    CursAreThere(s.v, s.mem, c);
  }

  lemma AheadAt(s: State, c: Cache)
    requires Inv(s) && Known(s, c)
    ensures s.pcs[c].Loaded? || s.pcs[c].Sealing? ==> s.fields[c].cur != null
    ensures s.pcs[c].Sealing? ==> s.fields[c].curCount == CHUNK_SIZE
    ensures s.pcs[c].Trimming? ==> s.fields[c].chunkTop != null
    ensures s.pcs[c].Ready? ==> s.fields[c].curCount < CHUNK_SIZE
    ensures s.pcs[c].Carrying? || s.pcs[c].Pushing? || s.pcs[c].LeavingPush? ==> s.pcs[c].head in s.mem
  {
    hide Represented, Sized, See, Builders, Head, TopCommon;
    KnownIsIn(s, c);
    ThreadOf(s, c);
    HasChunks(s, c);
  }

  lemma AheadHeld(s: State, c: Cache)
    requires Inv(s) && Known(s, c) && (s.pcs[c].Taking? || s.pcs[c].Giving?)
    ensures s.pcs[c].b in s.mem && s.mem[s.pcs[c].b].useFlag == 0
  {
    hide Represented, Sized, See, Builders, Head, TopCommon;
    KnownIsIn(s, c);
    ThreadOf(s, c);
    HeldIsIdle(s.v, s.mem, c, s.pcs[c].b);
  }

  lemma CursAreThere(v: View, mem: Cells, c: Cache)
    requires Represented(v, mem) && c in v.depth
    ensures See(v, c).cur != [] ==> Top(See(v, c).cur) in mem
    ensures See(v, c).chunkTop != null ==> See(v, c).chunkTop in mem
    ensures Head(v, TopCommon(v)) != null ==> Head(v, TopCommon(v)) in mem
  {
    hide Linked, Flagged, Headed, Placed, Named;
    ChunksSeen(v, c);
    if See(v, c).cur != [] { TopPlaced(v, mem, Cur(c)); }
    if See(v, c).chunkTop != null { TopPlaced(v, mem, TopChunk(v, c)); }
    if Head(v, TopCommon(v)) != null { TopPlaced(v, mem, TopCommon(v)); }
  }

  /** What the next step is, at each point of the code. */
  lemma StepIs(s: State, c: Cache, new': seq<Block>, cells: Cells)
    requires Known(s, c)
    ensures var z := Step(s, c, new', cells);
      match s.pcs[c]
      case Ready => true
      case Refilling => z == RefillStep(s, c)
      case Popping => z == PopStep(s, c)
      case Counting(stock) => z == CountStep(s, c, stock)
      case Building(stock) => new' != [] ==> z == BuildStep(s, c, stock, new', cells)
      case Carrying(head) => z == InstallStep(s, c, head)
      case Loaded => z == UnlinkStep(s, c)
      case Taking(b) => z == TakeStep(s, c, b)
      case Giving(b) => z == GiveStep(s, c, b)
      case Sealing => z == SealStep(s, c)
      case Trimming => z == DrawStep(s, c, false)
      case Pushing(head) => z == PushStep(s, c, head, Ready)
      case Leaving => z == LeaveStep(s, c)
      case LeavingPush(head) => z == PushStep(s, c, head, Leaving)
  {
  }

  lemma SealWrites(s: State, c: Cache)
    requires Known(s, c) && s.fields[c].cur in s.mem
    ensures var f, z := s.fields[c], SealStep(s, c);
            && z.mem == s.mem[f.cur := HeadWritten(s.mem[f.cur], f.curCount, f.chunkTop)]
            && z.fields == s.fields[c := Fields(null, 0, f.cur, f.chunkCount + 1)]
            && z.pcs == s.pcs[c := if f.chunkCount + 1 > TLS_MAX_CHUNKS then Trimming else Ready]
            && z.top == s.top && z.made == s.made && z.limit == s.limit && z.broken == s.broken
  {
    hide MoveBy;
  }

  lemma Starts(s: State, c: Cache)
    requires Inv(s) && !s.broken && c !in s.pcs
    ensures Inv(StartStep(s, c)) && Used(StartStep(s, c).v) == Used(s.v)
  {
    hide Inv, StartStep;
    ApplyKeepsInv(s, Start(c));
    StartView(s, c);
    LeftUsed(s.v, c);
  }

  lemma StartReached(s: State, c: Cache)
    requires Init(s)
    ensures Reached(s, [Start(c)], StartStep(s, c))
  {
    var z := StartStep(s, c);
    assert [Start(c)][1..] == [];
    assert Enabled(s, Start(c)) && Apply(s, Start(c)) == z;
    assert Legal(z, []) && Run(z, []) == z;
  }

  lemma NothingUsed(s: State)
    requires Init(s)
    ensures Used(s.v) == {}
  {
  }

  lemma StartView(s: State, c: Cache)
    ensures StartStep(s, c).v == Joined(s.v, c)
  {
  }
}
