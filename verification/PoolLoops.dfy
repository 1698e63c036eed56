/** The loops of `PushChunk` and `PopChunk` in LockFreeMemoryPool.h on the blocks of the pool: every read
    of the tagged top, every read or write of a chunk's link and every compare-and-swap is a step, and
    any number of threads are inside the loops and the rest of the pool at once.

    Such a run is a run of PoolMachine, where a push or a pop is one step, so that all that PoolRuns
    proves holds here too. */
module PoolLoops {
  import opened TaggedPointer
  import opened PoolLayout
  import opened PoolMemory
  import opened PoolMachine
  import opened PoolMoves
  import opened PoolSteps
  import opened PoolRuns
  import opened PoolCalls

  /** `m_top` with a write counter that never wraps. */
  datatype Word = Word(ver: nat, top: Block?)

  /** What a compare-and-swap compares. */
  predicate SameWord(a: Word, b: Word) {
    a.top == b.top && a.ver % TAGS == b.ver % TAGS
  }

  /** Blocks at different addresses: these are the bits of the tagged words. */
  lemma SameWordIsSameBits(a: Word, b: Word, address: Block? -> Ptr)
    requires address(a.top) == address(b.top) ==> a.top == b.top
    ensures SameWord(a, b) <==> Bits(Stamped(a.ver, address(a.top))) == Bits(Stamped(b.ver, address(b.top)))
  {
    TaggedPointer.Unpack(a.ver, address(a.top));
    TaggedPointer.Unpack(b.ver, address(b.top));
  }

  /** Where a thread is inside a loop, with its local copies; `Outside` is the beginning of a turn. */
  datatype Loop =
    | Outside
    | PopLooked(snap: Word)
    | PopReady(snap: Word, next: Block?)
    | PushLooked(snap: Word)
    | PushReady(snap: Word)

  datatype LState = LState(s: State, word: Word, loops: map<Cache, Loop>)

  datatype LAction =
    | Plain(a: Action)       // a step outside the loops
    | Turn(c: Cache)         // the next access of a thread inside one

  predicate Spinning(s: State, c: Cache) {
    Known(s, c) && (s.pcs[c].Popping? || Pushes(s.pcs[c]))
  }

  function LoopOf(t: LState, c: Cache): Loop {
    if c in t.loops then t.loops[c] else Outside
  }

  function Goto(t: LState, c: Cache, l: Loop): LState {
    t.(loops := t.loops[c := l])
  }

  function PcBehind(pc: Pc): Pc {
    if pc.LeavingPush? then Leaving else Ready
  }

  // ---------------------------------------------------------------- steps

  function PopTurn(t: LState, c: Cache): LState
    requires Known(t.s, c)
  {
    match LoopOf(t, c)
    case PopLooked(snap) =>                                         // next = head->chunkNext
      if snap.top == null || snap.top !in t.s.mem then t.(s := Crash(t.s))
      else Goto(t, c, PopReady(snap, t.s.mem[snap.top].chunkNext))
    case PopReady(snap, next) =>                                    // the exchange
      if SameWord(t.word, snap) && snap.top != null then
        Goto(t, c, Outside)
        .(s := Went(t.s, c, t.s.fields[c], Pop, Carrying(snap.top)).(top := next), word := Word(t.word.ver + 1, next))
      else Goto(t, c, Outside)
    case _ =>                                                      // oldTop = m_top
      if t.word.top == null then Goto(t, c, Outside).(s := Went(t.s, c, t.s.fields[c], Stay, Counting(false)))
      else Goto(t, c, PopLooked(t.word))
  }

  function PushTurn(t: LState, c: Cache, head: Block): LState
    requires Known(t.s, c)
  {
    match LoopOf(t, c)
    case PushLooked(snap) =>                                        // head->chunkNext = GetPointer(oldTop)
      if head !in t.s.mem then t.(s := Crash(t.s))
      else Goto(t, c, PushReady(snap)).(s := t.s.(mem := t.s.mem[head := t.s.mem[head].(chunkNext := snap.top)]))
    case PushReady(snap) =>                                         // the exchange
      if SameWord(t.word, snap) then
        Goto(t, c, Outside)
        .(s := Went(t.s, c, t.s.fields[c], Push, PcBehind(t.s.pcs[c])).(top := head),
          word := Word(t.word.ver + 1, head))
      else Goto(t, c, Outside)
    case _ => Goto(t, c, PushLooked(t.word))                       // oldTop = m_top
  }

  function TurnStep(t: LState, c: Cache): LState
    requires Spinning(t.s, c)
  {
    if t.s.pcs[c].Popping? then PopTurn(t, c) else PushTurn(t, c, t.s.pcs[c].head)
  }

  /** A compare-and-swap comes fewer than 2^17 writes after the read it relies on. */
  predicate InTime(t: LState, c: Cache) {
    match LoopOf(t, c)
    case PopReady(snap, _) => t.word.ver < snap.ver + TAGS
    case PushReady(snap) => t.word.ver < snap.ver + TAGS
    case _ => true
  }

  predicate IsPlain(s: State, a: Action) {
    !a.Prepare? && (a.Continue? ==> !Spinning(s, a.c))
  }

  predicate MayTurn(t: LState, c: Cache) {
    !t.s.broken && Spinning(t.s, c) && InTime(t, c)
  }

  ghost predicate LEnabled(t: LState, a: LAction) {
    match a
    case Plain(a) => Enabled(t.s, a) && IsPlain(t.s, a)
    case Turn(c) => MayTurn(t, c)
  }

  ghost function LApply(t: LState, a: LAction): LState
    requires LEnabled(t, a)
  {
    match a
    case Plain(a) => t.(s := Apply(t.s, a))
    case Turn(c) => TurnStep(t, c)
  }

  // ---------------------------------------------------------------- invariant

  predicate Older(a: Word, b: Word) {
    a == b || a.ver < b.ver
  }

  /** What a thread inside a loop may rely on: a copy of the top that is still current goes with the true
      link of the top chunk, and the link in a chunk that is to be pushed is the copy. */
  ghost predicate LoopFits(t: LState, c: Cache) {
    match LoopOf(t, c)
    case Outside => true
    case PopLooked(snap) => Known(t.s, c) && t.s.pcs[c].Popping? && Older(snap, t.word) && snap.top in t.s.mem
    case PopReady(snap, next) =>
      && Known(t.s, c) && t.s.pcs[c].Popping? && Older(snap, t.word) && snap.top in t.s.mem
      && (snap == t.word ==> next == t.s.mem[snap.top].chunkNext)
    case PushLooked(snap) => Known(t.s, c) && Pushes(t.s.pcs[c]) && Older(snap, t.word)
    case PushReady(snap) =>
      && Known(t.s, c) && Pushes(t.s.pcs[c]) && Older(snap, t.word)
      && t.s.pcs[c].head in t.s.mem && t.s.mem[t.s.pcs[c].head].chunkNext == snap.top
  }

  ghost predicate LInv(t: LState) {
    Inv(t.s) && t.s.top == t.word.top && forall c :: c in t.loops ==> LoopFits(t, c)
  }

  /** Inside the window an exchange succeeds only if the top was not written since it was read. */
  lemma WinsOnlyUnchanged(snap: Word, word: Word)
    requires Older(snap, word) && word.ver < snap.ver + TAGS && SameWord(word, snap)
    ensures snap == word
  {
  }

  // ---------------------------------------------------------------- blocks that others do not write

  lemma CurIsHead(s: State, c: Cache)
    requires Inv(s) && Known(s, c)
    ensures s.fields[c].cur == Head(s.v, Cur(c))
  {
    hide Represented, Sized, Builders, PcFits, TopCommon;
    KnownIsIn(s, c);
    assert ThreadInv(s, c);
  }

  lemma TopIsNoCur(s: State, c: Cache)
    requires Inv(s) && Known(s, c) && s.top != null
    ensures s.top in s.mem && s.top != s.fields[c].cur
  {
    hide Inv, TopCommon, Placed;
    CurIsHead(s, c);
    StackTop(s);
    HeadsDiffer(s.v, TopCommon(s.v));
  }

  lemma StackTop(s: State)
    requires Inv(s) && s.top != null
    ensures s.top in s.mem && Placed(s.v) && s.top == Head(s.v, TopCommon(s.v)) && TopCommon(s.v) in s.v.lists
    ensures forall c :: TopCommon(s.v) != Cur(c)
  {
    hide Sized, Builders, ThreadInv;
    TopPlaced(s.v, s.mem, TopCommon(s.v));
  }

  lemma HandIsNoCur(s: State, c: Cache, d: Cache)
    requires Inv(s) && Known(s, c) && Known(s, d) && Pushes(s.pcs[d])
    ensures s.pcs[d].head in s.mem && s.pcs[d].head != s.fields[c].cur
  {
    SoundView(s.v, s.mem);
    hide Inv, Placed;
    CurIsHead(s, c);
    HandList(s, d);
    HeadsDiffer(s.v, Hand(d));
  }

  lemma HandIsNoTop(s: State, d: Cache)
    requires Inv(s) && Known(s, d) && Pushes(s.pcs[d])
    ensures s.pcs[d].head != s.top
  {
    hide Sized, Builders, ThreadInv, Named, Linked, Flagged, Headed, Placed;
    HandList(s, d);
    HeadsDiffer(s.v, Hand(d));
  }

  lemma HandsDiffer(s: State, c: Cache, d: Cache)
    requires Inv(s) && Known(s, c) && Known(s, d) && Pushes(s.pcs[c]) && Pushes(s.pcs[d]) && c != d
    ensures s.pcs[c].head != s.pcs[d].head
  {
    hide Sized, Builders, ThreadInv, Named, Linked, Flagged, Headed, Placed;
    HandList(s, c);
    HandList(s, d);
    HeadsDiffer(s.v, Hand(c));
  }

  /** A step outside the loops writes no link of a block but the head of its own current list. */
  lemma PlainKeepsLink(s: State, a: Action, x: Block)
    requires Inv(s) && Enabled(s, a) && IsPlain(s, a) && !Apply(s, a).broken
    requires x in s.mem && (Known(s, a.c) ==> x != s.fields[a.c].cur)
    ensures x in Apply(s, a).mem && Apply(s, a).mem[x].chunkNext == s.mem[x].chunkNext
  {
    MemoryIsKnown(s);
    hide Inv, MoveBy, Fresh, Step, FreeStep, IsPlain;
    match a
    case Continue(c, new', cells) => ContinueKeepsLink(s, c, new', cells, x);
    case Free(c, b) => FreeKeepsLink(s, c, b, x);
    case Prepare(_, _) => assert false by { NotPlain(s, a); }
    case _ =>
  }

  lemma NotPlain(s: State, a: Action)
    requires IsPlain(s, a)
    ensures !a.Prepare? && (a.Continue? ==> !Spinning(s, a.c))
  {
  }

  lemma FreeKeepsLink(s: State, c: Cache, b: Block, x: Block)
    requires Known(s, c) && x in s.mem
    ensures x in FreeStep(s, c, b).mem && FreeStep(s, c, b).mem[x].chunkNext == s.mem[x].chunkNext
  {
    hide MoveBy;
  }

  lemma ContinueKeepsLink(s: State, c: Cache, new': seq<Block>, cells: Cells, x: Block)
    requires Known(s, c) && IsPlain(s, Continue(c, new', cells)) && s.mem.Keys == s.v.where.Keys
    requires s.pcs[c].Building? && new' != [] ==> Fresh(s, new', cells)
    requires x in s.mem && x != s.fields[c].cur
    ensures x in Step(s, c, new', cells).mem && Step(s, c, new', cells).mem[x].chunkNext == s.mem[x].chunkNext
  {
    hide Fresh, Step;
    if s.pcs[c].Building? {
      BuildKeepsLink(s, c, new', cells, x);
    } else if s.pcs[c].Giving? || s.pcs[c].Sealing? || s.pcs[c].Trimming? || s.pcs[c].Leaving? {
      FreeingKeepsLink(s, c, new', cells, x);
    } else {
      AllocKeepsLink(s, c, new', cells, x);
    }
  }

  lemma BuildKeepsLink(s: State, c: Cache, new': seq<Block>, cells: Cells, x: Block)
    requires Known(s, c) && s.pcs[c].Building? && (new' != [] ==> Fresh(s, new', cells))
    requires x in s.mem && s.mem.Keys == s.v.where.Keys
    ensures x in Step(s, c, new', cells).mem && Step(s, c, new', cells).mem[x] == s.mem[x]
  {
    hide MoveBy, Chained;
  }

  lemma FreeingKeepsLink(s: State, c: Cache, new': seq<Block>, cells: Cells, x: Block)
    requires Known(s, c) && (s.pcs[c].Giving? || s.pcs[c].Sealing? || s.pcs[c].Trimming? || s.pcs[c].Leaving?)
    requires x in s.mem && x != s.fields[c].cur
    ensures x in Step(s, c, new', cells).mem && Step(s, c, new', cells).mem[x].chunkNext == s.mem[x].chunkNext
  {
    hide MoveBy, RefillStep, PopStep, CountStep, BuildStep, InstallStep, UnlinkStep, TakeStep, PushStep;
  }

  lemma AllocKeepsLink(s: State, c: Cache, new': seq<Block>, cells: Cells, x: Block)
    requires Known(s, c) && !Spinning(s, c) && !s.pcs[c].Building?
    requires !s.pcs[c].Giving? && !s.pcs[c].Sealing? && !s.pcs[c].Trimming? && !s.pcs[c].Leaving?
    requires x in s.mem
    ensures x in Step(s, c, new', cells).mem && Step(s, c, new', cells).mem[x].chunkNext == s.mem[x].chunkNext
  {
    hide MoveBy, PopStep, BuildStep, GiveStep, SealStep, DrawStep, PushStep, LeaveStep;
  }

  lemma PlainKeepsTop(s: State, a: Action)
    requires Enabled(s, a) && IsPlain(s, a)
    ensures Apply(s, a).top == s.top
  {
    hide MoveBy, Fresh;
  }

  // ---------------------------------------------------------------- steps outside the loops

  lemma PlainKeepsOne(t: LState, a: Action, d: Cache)
    requires LInv(t) && Enabled(t.s, a) && IsPlain(t.s, a) && !Apply(t.s, a).broken && d in t.loops
    ensures LoopFits(t.(s := Apply(t.s, a)), d)
  {
    hide Inv, Enabled, Apply, IsPlain;
    if LoopOf(t, d) != Outside {
      NotThisOne(t, a, d);
      OneWaits(t.s, a, a.c, d);
      OthersLinks(t, a, d);
    }
  }

  /** A thread inside a loop takes no step outside it. */
  lemma NotThisOne(t: LState, a: Action, d: Cache)
    requires Enabled(t.s, a) && IsPlain(t.s, a) && LoopFits(t, d) && LoopOf(t, d) != Outside
    ensures a.c != d
  {
    hide Fresh;
  }

  lemma OthersLinks(t: LState, a: Action, d: Cache)
    requires LInv(t) && Enabled(t.s, a) && IsPlain(t.s, a) && !Apply(t.s, a).broken
    requires Spinning(t.s, d)
    ensures t.s.mem.Keys <= Apply(t.s, a).mem.Keys
    ensures t.s.top != null ==>
              t.s.top in t.s.mem && Apply(t.s, a).mem[t.s.top].chunkNext == t.s.mem[t.s.top].chunkNext
    ensures Pushes(t.s.pcs[d]) ==>
              && t.s.pcs[d].head in t.s.mem
              && Apply(t.s, a).mem[t.s.pcs[d].head].chunkNext == t.s.mem[t.s.pcs[d].head].chunkNext
  {
    hide Inv, Enabled, Apply, IsPlain, LoopFits;
    MoreMemory(t.s, a);
    if t.s.top != null {
      if Known(t.s, a.c) { TopIsNoCur(t.s, a.c); } else { TopIsNoCur(t.s, d); }
      PlainKeepsLink(t.s, a, t.s.top);
    }
    if Pushes(t.s.pcs[d]) {
      if Known(t.s, a.c) { HandIsNoCur(t.s, a.c, d); } else { HandIsNoCur(t.s, d, d); }
      PlainKeepsLink(t.s, a, t.s.pcs[d].head);
    }
  }

  lemma MoreMemory(s: State, a: Action)
    requires Enabled(s, a)
    ensures s.mem.Keys <= Apply(s, a).mem.Keys
  {
    hide MoveBy, Fresh;
  }

  lemma PlainKeeps(t: LState, a: Action)
    requires LInv(t) && Enabled(t.s, a) && IsPlain(t.s, a) && !Apply(t.s, a).broken
    ensures LInv(t.(s := Apply(t.s, a)))
  {
    hide Inv, Enabled, Apply, IsPlain, LoopFits, Breaks;
    ApplyKeepsInv(t.s, a);
    PlainKeepsTop(t.s, a);
    forall d | d in t.loops ensures LoopFits(t.(s := Apply(t.s, a)), d) {
      PlainKeepsOne(t, a, d);
    }
  }

  // ---------------------------------------------------------------- steps inside the loops

  /** A step of `c` inside a loop that writes at most the link of `skip`, which is in its hand. */
  lemma LoopsKeep(t: LState, t': LState, c: Cache, skip: Block?)
    requires LInv(t) && Inv(t'.s) && t'.s.top == t'.word.top && LoopFits(t', c)
    requires t'.loops == t.loops[c := LoopOf(t', c)]
    requires forall d :: d in t.loops && d != c && Known(t.s, d) ==> SameThread(t.s, t'.s, d)
    requires t'.word == t.word || t'.word.ver > t.word.ver
    requires forall x :: x in t.s.mem ==> x in t'.s.mem
    requires forall x :: x in t.s.mem && x != skip ==> t'.s.mem[x].chunkNext == t.s.mem[x].chunkNext
    requires t'.word == t.word && skip != null ==> skip != t.word.top
    requires forall d :: d in t.loops && d != c && Known(t.s, d) && Pushes(t.s.pcs[d]) ==> t.s.pcs[d].head != skip
    ensures LInv(t')
  {
    hide Inv;
    forall d | d in t'.loops ensures LoopFits(t', d) {
      if d != c {
        assert LoopFits(t, d);
      }
    }
  }

  /** One step of PoolMachine, or none. */
  ghost predicate Refines(t: LState, acts: seq<Action>, t': LState) {
    |acts| <= 1 && Legal(t.s, acts) && Run(t.s, acts) == t'.s
  }

  lemma NoStep(t: LState, t': LState)
    requires t'.s == t.s
    ensures Refines(t, [], t')
  {
  }

  lemma OneStep(t: LState, a: Action, t': LState)
    requires Enabled(t.s, a) && Apply(t.s, a) == t'.s
    ensures Refines(t, [a], t')
  {
    hide Enabled, Apply;
    assert [a][1..] == [];
    assert Legal(t'.s, []) && Run(t'.s, []) == t'.s;
  }

  /** The top is read, or an exchange has failed. */
  lemma SilentTurn(t: LState, c: Cache, l: Loop)
    requires LInv(t) && LoopFits(Goto(t, c, l), c)
    ensures LInv(Goto(t, c, l)) && Refines(t, [], Goto(t, c, l))
  {
    hide Inv, LoopFits;
    NoStep(t, Goto(t, c, l));
    LoopsKeep(t, Goto(t, c, l), c, null);
  }

  /** A pop finds the stack empty. */
  lemma EmptyTurn(t: LState, c: Cache) returns (acts: seq<Action>)
    requires LInv(t) && MayTurn(t, c) && t.s.pcs[c].Popping? && t.word.top == null
    requires LoopOf(t, c).Outside?
    ensures LInv(TurnStep(t, c)) && Refines(t, acts, TurnStep(t, c)) && !TurnStep(t, c).s.broken
  {
    hide Inv, Breaks, MoveBy;
    var t' := TurnStep(t, c);
    acts := [Continue(c, [], map[])];
    assert Apply(t.s, acts[0]) == t'.s;
    OneStep(t, acts[0], t');
    ApplyKeeps(t.s, acts[0]);
    hide MoveBy;
    LoopsKeep(t, t', c, null);
  }

  /** Of a thread inside a loop, no step of PoolMachine breaks. */
  lemma ApplyKeeps(s: State, a: Action)
    requires Inv(s) && Enabled(s, a) && Spinning(s, a.c) && (a.Continue? || a.Prepare?)
    ensures Inv(Apply(s, a)) && !Apply(s, a).broken
  {
    hide Inv, Fresh, Apply;
    ApplyKeepsInv(s, a);
  }

  /** An exchange of `PopChunk` that succeeds takes the top chunk, and leaves the one that is really below
      it, however old the copies are and whoever had the chunk in the meantime. */
  lemma WinningPop(t: LState, c: Cache) returns (acts: seq<Action>)
    requires LInv(t) && MayTurn(t, c) && LoopOf(t, c).PopReady? && SameWord(t.word, LoopOf(t, c).snap)
    ensures var head, next, z := LoopOf(t, c).snap.top, LoopOf(t, c).next, TurnStep(t, c);
            && head != null && head == t.s.top && head in t.s.mem && next == t.s.mem[head].chunkNext
            && z.s == PopStep(t.s, c) && z.s.pcs[c] == Carrying(head)
    ensures LInv(TurnStep(t, c)) && Refines(t, acts, TurnStep(t, c)) && !TurnStep(t, c).s.broken
  {
    hide Inv, MoveBy;
    assert LoopFits(t, c);
    WinsOnlyUnchanged(LoopOf(t, c).snap, t.word);
    var t' := TurnStep(t, c);
    acts := [Continue(c, [], map[])];
    assert Apply(t.s, acts[0]) == PopStep(t.s, c) == t'.s;
    OneStep(t, acts[0], t');
    ApplyKeeps(t.s, acts[0]);
    LoopsKeep(t, t', c, null);
  }

  /** A link is written into the chunk in the hand. */
  lemma LinkTurn(t: LState, c: Cache) returns (acts: seq<Action>)
    requires LInv(t) && MayTurn(t, c) && LoopOf(t, c).PushLooked?
    ensures LInv(TurnStep(t, c)) && Refines(t, acts, TurnStep(t, c)) && !TurnStep(t, c).s.broken
  {
    hide Inv, MoveBy;
    assert LoopFits(t, c);
    var t', head := TurnStep(t, c), t.s.pcs[c].head;
    HandIsNoTop(t.s, c);
    HandIsNoCur(t.s, c, c);
    acts := [Prepare(c, LoopOf(t, c).snap.top)];
    assert Apply(t.s, acts[0]) == t'.s;
    OneStep(t, acts[0], t');
    ApplyKeeps(t.s, acts[0]);
    forall d | d in t.loops && d != c && Known(t.s, d) && Pushes(t.s.pcs[d]) ensures t.s.pcs[d].head != head {
      HandsDiffer(t.s, c, d);
    }
    LoopsKeep(t, t', c, head);
  }

  /** An exchange of `PushChunk` that succeeds puts the chunk on top of the one that its link names. */
  lemma WinningPush(t: LState, c: Cache) returns (acts: seq<Action>)
    requires MayTurn(t, c) && Pushes(t.s.pcs[c]) && LoopOf(t, c).PushReady?
    requires LInv(t) && SameWord(t.word, LoopOf(t, c).snap)
    ensures var head, z := t.s.pcs[c].head, TurnStep(t, c);
            && head in t.s.mem && t.s.mem[head].chunkNext == t.s.top
            && z.s == PushStep(t.s, c, head, PcBehind(t.s.pcs[c]))
    ensures LInv(TurnStep(t, c)) && Refines(t, acts, TurnStep(t, c)) && !TurnStep(t, c).s.broken
  {
    hide Inv, MoveBy;
    assert LoopFits(t, c);
    WinsOnlyUnchanged(LoopOf(t, c).snap, t.word);
    var t', head := TurnStep(t, c), t.s.pcs[c].head;
    assert t.s.mem[head := t.s.mem[head].(chunkNext := t.s.top)] == t.s.mem;
    acts := [Continue(c, [], map[])];
    assert Apply(t.s, acts[0]) == PushStep(t.s, c, head, PcBehind(t.s.pcs[c])) == t'.s;
    OneStep(t, acts[0], t');
    ApplyKeeps(t.s, acts[0]);
    LoopsKeep(t, t', c, null);
  }

  lemma TurnRefines(t: LState, c: Cache) returns (acts: seq<Action>)
    requires LInv(t) && MayTurn(t, c)
    ensures LInv(TurnStep(t, c)) && Refines(t, acts, TurnStep(t, c)) && !TurnStep(t, c).s.broken
  {
    hide Inv, MoveBy, Refines;
    assert LoopFits(t, c);
    acts := [];
    match LoopOf(t, c)
    case Outside =>
      if t.s.pcs[c].Popping? && t.word.top == null {
        acts := EmptyTurn(t, c);
      } else {
        if t.word.top != null { TopIsNoCur(t.s, c); }
        SilentTurn(t, c, if t.s.pcs[c].Popping? then PopLooked(t.word) else PushLooked(t.word));
      }
    case PopLooked(snap) => SilentTurn(t, c, PopReady(snap, t.s.mem[snap.top].chunkNext));
    case PopReady(snap, _) =>
      if SameWord(t.word, snap) { acts := WinningPop(t, c); } else { SilentTurn(t, c, Outside); }
    case PushLooked(_) => acts := LinkTurn(t, c);
    case PushReady(snap) =>
      if SameWord(t.word, snap) { acts := WinningPush(t, c); } else { SilentTurn(t, c, Outside); }
  }

  // ---------------------------------------------------------------- runs

  /** Every step, inside the loops or outside, is one step of PoolMachine or changes nothing that it sees;
      and nobody's copies come to say what is not so. */
  lemma StepRefines(t: LState, a: LAction) returns (acts: seq<Action>)
    requires LInv(t) && LEnabled(t, a)
    ensures Refines(t, acts, LApply(t, a))
    ensures !LApply(t, a).s.broken ==> LInv(LApply(t, a))
  {
    hide Inv, LInv, Enabled, Apply, TurnStep, IsPlain, Refines;
    match a
    case Plain(p) =>
      acts := [p];
      OneStep(t, p, LApply(t, a));
      if !Apply(t.s, p).broken {
        PlainKeeps(t, p);
      }
    case Turn(c) => acts := TurnRefines(t, c);
  }

  ghost predicate LInit(t: LState) {
    Init(t.s) && t.word.top == null && t.loops == map[]
  }

  ghost predicate LLegal(t: LState, acts: seq<LAction>)
    decreases |acts|
  {
    acts == [] || (LEnabled(t, acts[0]) && LLegal(LApply(t, acts[0]), acts[1..]))
  }

  ghost function LRun(t: LState, acts: seq<LAction>): LState
    requires LLegal(t, acts)
    decreases |acts|
  {
    if acts == [] then t else LRun(LApply(t, acts[0]), acts[1..])
  }

  lemma {:induction false} RunFrom(t: LState, acts: seq<LAction>) returns (plain: seq<Action>)
    requires LInv(t) && LLegal(t, acts)
    ensures Legal(t.s, plain) && Run(t.s, plain) == LRun(t, acts).s
    ensures !LRun(t, acts).s.broken ==> LInv(LRun(t, acts))
    decreases |acts|
  {
    hide LInv, LEnabled, LApply, Enabled, Apply;
    plain := [];
    if acts != [] {
      var t' := LApply(t, acts[0]);
      var first := StepRefines(t, acts[0]);
      var rest := [];
      if t'.s.broken {
        NothingAfter(t', acts[1..]);
      } else {
        rest := RunFrom(t', acts[1..]);
      }
      RunsOn(t.s, first, rest);
      plain := first + rest;
    }
  }

  lemma NothingAfter(t: LState, acts: seq<LAction>)
    requires t.s.broken && LLegal(t, acts)
    ensures acts == []
  {
    hide LApply;
  }

  /** A run of the loops from the empty pool that has not broken. */
  ghost predicate LReached(t0: LState, acts: seq<LAction>, t: LState) {
    LInit(t0) && LLegal(t0, acts) && LRun(t0, acts) == t && !t.s.broken
  }

  /** Every run of the loops is a run of PoolMachine. */
  lemma RunRefines(t0: LState, acts: seq<LAction>, t: LState) returns (plain: seq<Action>)
    requires LReached(t0, acts, t)
    ensures Reached(t0.s, plain, t.s) && LInv(t)
  {
    hide LLegal, LRun, Inv, Legal, Run;
    InitInv(t0.s);
    plain := RunFrom(t0, acts);
  }

  /** While single accesses of any number of loops alternate, each block is in use, or idle and at exactly
      one place: of a current list, a cached chunk, a shared chunk, or in the hand of a thread. */
  lemma OnePlaceInLoops(t0: LState, acts: seq<LAction>, t: LState, b: Block)
    requires LReached(t0, acts, t) && b in t.s.v.where
    ensures var v := t.s.v;
            && (v.where[b] == InUse ==> forall n, k :: n in v.lists && 0 <= k < |v.lists[n]| ==> v.lists[n][k] != b)
            && (v.where[b] != InUse ==>
                  exists n, k :: n in v.lists && 0 <= k < |v.lists[n]| && v.lists[n][k] == b
                    && forall m, j :: m in v.lists && 0 <= j < |v.lists[m]| && v.lists[m][j] == b ==> m == n && j == k)
  {
    hide LReached, Reached, LInv;
    var plain := RunRefines(t0, acts, t);
    OnePlace(t0.s, plain, t.s, b);
  }

  /** The shared stack in memory: `m_top` is the head of its top chunk, and each head has the chunk below. */
  lemma StackIsLinked(t0: LState, acts: seq<LAction>, t: LState, j: int)
    requires LReached(t0, acts, t) && 0 <= j < t.s.v.common
    ensures Common(j) in t.s.v.lists && Head(t.s.v, Common(j)) in t.s.mem
    ensures t.s.mem[Head(t.s.v, Common(j))].chunkNext == if j == 0 then null else Head(t.s.v, Common(j - 1))
    ensures t.word.top == Head(t.s.v, TopCommon(t.s.v))
  {
    hide LReached, Reached, Sized, ThreadInv, Builders, LoopFits, Placed, Linked, Flagged, Headed;
    var plain := RunRefines(t0, acts, t);
    HeadsAreExact(t0.s, plain, t.s, Common(j));
    if j == 0 { assert Common(-1) !in t.s.v.lists by { NoNegative(t.s.v); } }
  }

  lemma NoNegative(v: View)
    requires Named(v)
    ensures Common(-1) !in v.lists
  {
  }

  // ---------------------------------------------------------------- progress

  /** A thread goes back to the beginning of its loop only if the top has been written since it read it, that
      is, if another thread's push or pop has succeeded. */
  lemma RetryMeansBeaten(t: LState, c: Cache)
    requires LInv(t) && MayTurn(t, c) && LoopOf(t, c) != Outside
    requires Spinning(TurnStep(t, c).s, c) && LoopOf(TurnStep(t, c), c) == Outside
    ensures LoopOf(t, c).PopReady? || LoopOf(t, c).PushReady?
    ensures LoopOf(t, c).snap.ver < t.word.ver && TurnStep(t, c).s == t.s
  {
    hide Inv;
    assert LoopFits(t, c);
  }

  /** How many more turns a thread is inside its loop at most if nobody else writes the top. */
  function TurnsLeft(t: LState, c: Cache): nat {
    if !Spinning(t.s, c) then 0
    else
      match LoopOf(t, c)
      case Outside => 3
      case PopLooked(snap) => if snap == t.word then 2 else 5
      case PopReady(snap, _) => if snap == t.word then 1 else 4
      case PushLooked(snap) => if snap == t.word then 2 else 5
      case PushReady(snap) => if snap == t.word then 1 else 4
  }

  lemma PopTurnNears(t: LState, c: Cache)
    requires LInv(t) && MayTurn(t, c) && t.s.pcs[c].Popping?
    ensures TurnsLeft(TurnStep(t, c), c) < TurnsLeft(t, c) <= 5
  {
    hide Inv, MoveBy;
    assert LoopFits(t, c);
  }

  lemma PushTurnNears(t: LState, c: Cache)
    requires LInv(t) && MayTurn(t, c) && Pushes(t.s.pcs[c])
    ensures TurnsLeft(TurnStep(t, c), c) < TurnsLeft(t, c) <= 5
  {
    hide Inv, MoveBy;
    assert LoopFits(t, c);
    HandIsNoCur(t.s, c, c);
  }

  lemma TurnNears(t: LState, c: Cache)
    requires LInv(t) && MayTurn(t, c)
    ensures TurnsLeft(TurnStep(t, c), c) < TurnsLeft(t, c) <= 5
  {
    hide LInv, TurnStep, TurnsLeft;
    if t.s.pcs[c].Popping? { PopTurnNears(t, c); } else { PushTurnNears(t, c); }
  }

  /** A loop that runs alone, from whatever point and with whatever copies, is over after at most 5 turns. */
  lemma {:induction false} AloneItEnds(t: LState, acts: seq<LAction>, c: Cache)
    requires LInv(t) && LLegal(t, acts) && forall i :: 0 <= i < |acts| ==> acts[i] == Turn(c)
    ensures |acts| + TurnsLeft(LRun(t, acts), c) <= TurnsLeft(t, c) <= 5
    ensures |acts| == 5 ==> !Spinning(LRun(t, acts).s, c)
    decreases |acts|
  {
    hide LInv, TurnStep, Spinning;
    if acts != [] {
      var t' := TurnStep(t, c);
      var _ := TurnRefines(t, c);
      TurnNears(t, c);
      assert forall i :: 0 <= i < |acts| - 1 ==> acts[1..][i] == acts[i + 1];
      AloneItEnds(t', acts[1..], c);
    }
    StillSpinning(LRun(t, acts), c);
  }

  lemma StillSpinning(t: LState, c: Cache)
    ensures Spinning(t.s, c) <==> TurnsLeft(t, c) > 0
  {
  }
}
