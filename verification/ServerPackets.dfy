/** Packet reference counts: in every state `m_refCount` is the number of references that exist. */
module ServerPackets {
  import opened Tally
  import opened Tallying
  import opened Callbacks
  import opened Server
  import opened ServerSystem
  import opened ServerSlots

  // ---------------------------------------------------------------- where references are

  /** References an agent holds: its caller's, one it has just added, or one it is about to drop. */
  function AgentRefs(pc: Pc, p: nat): nat {
    match pc
    case RvPacket(_, q) => if q == p then 1 else 0
    case RvShared(_, q) => if q == p then 2 else 0
    case RvFree(_, q) => if q == p then 1 else 0
    case AqCheck(_, _, _, why) => if why == ToSend(p) then 1 else 0
    case AqFail(_, why) => if why == ToSend(p) then 1 else 0
    case AqOk(_, _, why) => if why == ToSend(p) then 1 else 0
    case SdShared(_, _, q) => if q == p then 2 else 0
    case SdLinked(_, q) => if q == p then 1 else 0
    case RlPacket(_, q) => if q == p then 1 else 0
    case _ => 0
  }

  function Occurrences(s: seq<nat>, p: nat): nat {
    if s == [] then 0 else (if s[0] == p then 1 else 0) + Occurrences(s[1..], p)
  }

  lemma {:induction false} OccurrencesAppend(s: seq<nat>, q: nat, p: nat)
    ensures Occurrences(s + [q], p) == Occurrences(s, p) + if q == p then 1 else 0
  {
    if s == [] {
      assert s + [q] == [q] && [q][1..] == [];
    } else {
      assert (s + [q])[1..] == s[1..] + [q];
      OccurrencesAppend(s[1..], q, p);
    }
  }

  lemma OccurrencesDrop(s: seq<nat>, k: nat, p: nat)
    requires k < |s|
    ensures Occurrences(s[k..], p) == Occurrences(s[k + 1..], p) + if s[k] == p then 1 else 0
  {
    assert s[k..][1..] == s[k + 1..];
  }

  /** The part of `sendingPackets` that is not freed yet. */
  function Unfreed(x: Slot): seq<nat> {
    if x.freed <= |x.sending| then x.sending[x.freed..] else []
  }

  /** References in a send queue and in `sendingPackets`. */
  function SlotRefs(x: Slot, p: nat): nat {
    Occurrences(x.queue, p) + Occurrences(Unfreed(x), p)
  }

  function JobRefs(job: Callback, p: nat): nat {
    if job.Received? && job.packet == p then 1 else 0
  }

  function OfAgent(p: nat): Pc -> nat { pc => AgentRefs(pc, p) }
  function OfSlot(p: nat): Slot -> nat { x => SlotRefs(x, p) }
  function OfJob(p: nat): Callback -> nat { job => JobRefs(job, p) }

  /** All references to a packet. */
  function Tokens(s: State, p: nat): nat {
    s.locals[p] + Sum(s.agents, OfAgent(p)) + Sum(s.slots, OfSlot(p))
    + Sum(if s.taken <= |s.log| then s.log[s.taken..] else [], OfJob(p))
  }

  /** A packet is out of the pool as long as somebody refers to it, and its count is exact. */
  ghost predicate PacketInv(s: State) {
    && s.taken <= |s.log|
    && (forall p: nat :: Exact(s, p))
  }

  ghost predicate Exact(s: State, p: nat) {
    if p in s.inUse then RefOf(s, p) == Tokens(s, p) >= 1 else Tokens(s, p) == 0
  }

  // ---------------------------------------------------------------- one step on one slot

  function Delta(op: PacketOp, p: nat): int {
    match op
    case Allocate(q) => if q == p then 1 else 0
    case Share(q) => if q == p then 1 else 0
    case Drop(q) => if q == p then -1 else 0
    case _ => 0
  }

  function Handed(op: PacketOp, p: nat): nat {
    if op == Hand(p) then 1 else 0
  }

  function Emitted(emit: seq<Callback>, p: nat): nat {
    if emit == [] then 0 else JobRefs(emit[0], p)
  }

  /** References move between the agent, its slot, the application and the job queue; the count
      changes exactly when one is created or dropped. */
  predicate Balanced(pc: Pc, x: Slot, c: Choice, o: Outcome, p: nat) {
    var op := OpOf(pc, x, c);
    AgentRefs(o.pc, p) + SlotRefs(o.slot, p) + Handed(op, p) + Emitted(EmitOf(pc, x), p)
    == AgentRefs(pc, p) + SlotRefs(x, p) + Delta(op, p)
  }

  /** What the slot invariant says about the arrays that a step indexes. */
  predicate Tidy(pc: Pc, x: Slot) {
    && x.freed <= |x.sending|
    && (pc.AcPopped? || pc.SpSize? ==> x.sending == [])
    && (pc.SpTake? ==> x.freed == 0)
    && (pc.ScFree? || pc.RlFree? ==> x.sendingCount == |x.sending|)
  }

  lemma AcceptBalance(pc: Pc, x: Slot, c: Choice, gen: nat, p: nat)
    requires InAccept(pc) && Tidy(pc, x)
    ensures Balanced(pc, x, c, AcceptStep(pc, x, c, gen), p)
  {
    hide Occurrences;
    if pc.AcPopped? {
      assert Unfreed(x) == [];
    }
  }

  lemma RecvBalance(pc: Pc, x: Slot, c: Choice, p: nat)
    requires InRecv(pc) && Tidy(pc, x)
    ensures Balanced(pc, x, c, RecvStep(pc, x, c), p)
  {
  }

  lemma AcquireBalance(pc: Pc, x: Slot, c: Choice, p: nat)
    requires InAcquire(pc) && Tidy(pc, x)
    ensures Balanced(pc, x, c, AcquireStep(pc, x), p)
  {
    hide Occurrences;
    if pc.SdShared? {
      OccurrencesAppend(x.queue, pc.p, p);
    }
  }

  lemma PostBalance(pc: Pc, x: Slot, c: Choice, p: nat)
    requires InPost(pc) && Tidy(pc, x)
    ensures Balanced(pc, x, c, PostStep(pc, x), p)
  {
    hide Occurrences;
    assert OpOf(pc, x, c) == Keep && EmitOf(pc, x) == [];
    if pc.SpSize? {
      assert Unfreed(x) == [];
    }
  }

  lemma BatchBalance(pc: Pc, x: Slot, c: Choice, p: nat)
    requires InBatch(pc) && Tidy(pc, x)
    ensures Balanced(pc, x, c, BatchStep(pc, x, c), p)
  {
    hide Occurrences;
    if pc.SpTake? && x.queue != [] {
      OccurrencesDrop(x.queue, 0, p);
      OccurrencesAppend(x.sending, x.queue[0], p);
      assert x.sending[0..] == x.sending && x.queue[0..] == x.queue;
      assert (x.sending + [x.queue[0]])[0..] == x.sending + [x.queue[0]];
    }
  }

  lemma DoneBalance(pc: Pc, x: Slot, c: Choice, p: nat)
    requires InDone(pc) && Tidy(pc, x)
    ensures Balanced(pc, x, c, DoneStep(pc, x), p)
  {
    if pc.ScFree? {
      FreeOneBalance(pc.i, x, c, p);
    } else {
      ClearBalance(pc.i, x, c, p);
    }
  }

  lemma FreeOneBalance(i: nat, x: Slot, c: Choice, p: nat)
    requires Tidy(ScFree(i), x)
    ensures Balanced(ScFree(i), x, c, DoneStep(ScFree(i), x), p)
  {
    hide Occurrences;
    FreeingBalance(x, p);
  }

  lemma ClearBalance(i: nat, x: Slot, c: Choice, p: nat)
    ensures Balanced(ScClear(i), x, c, DoneStep(ScClear(i), x), p)
  {
    hide Occurrences;
  }

  lemma FreeingBalance(x: Slot, p: nat)
    requires x.freed <= |x.sending|
    ensures x.freed < |x.sending| ==>
              Occurrences(x.sending[x.freed..], p)
              == Occurrences(x.sending[x.freed + 1..], p) + if x.sending[x.freed] == p then 1 else 0
    ensures Occurrences(x.sending[|x.sending|..], p) == 0 == Occurrences([], p)
  {
    if x.freed < |x.sending| {
      OccurrencesDrop(x.sending, x.freed, p);
    }
  }

  lemma FreeBalance(pc: Pc, x: Slot, c: Choice, p: nat)
    requires pc.RlFree? && Tidy(pc, x)
    ensures Balanced(pc, x, c, ReleaseStep(pc, x), p)
  {
    hide Occurrences;
    FreeingBalance(x, p);
  }

  lemma DrainBalance(pc: Pc, x: Slot, c: Choice, p: nat)
    requires pc.RlTake? && Tidy(pc, x)
    ensures Balanced(pc, x, c, ReleaseStep(pc, x), p)
  {
    hide Occurrences;
    if x.queue != [] {
      OccurrencesDrop(x.queue, 0, p);
      assert x.queue[0..] == x.queue;
    }
  }

  lemma OtherReleaseBalance(pc: Pc, x: Slot, c: Choice, p: nat)
    requires InRelease(pc) && !pc.RlFree? && !pc.RlTake?
    ensures Balanced(pc, x, c, ReleaseStep(pc, x), p)
  {
    hide Occurrences;
  }

  lemma ReleaseBalance(pc: Pc, x: Slot, c: Choice, p: nat)
    requires InRelease(pc) && Tidy(pc, x)
    ensures Balanced(pc, x, c, ReleaseStep(pc, x), p)
  {
    hide Balanced, ReleaseStep, Tidy;
    if pc.RlFree? { FreeBalance(pc, x, c, p); }
    else if pc.RlTake? { DrainBalance(pc, x, c, p); }
    else { OtherReleaseBalance(pc, x, c, p); }
  }

  lemma StepBalance(pc: Pc, x: Slot, c: Choice, gen: nat, p: nat)
    requires pc != Idle && Tidy(pc, x)
    ensures Balanced(pc, x, c, SlotStep(pc, x, c, gen), p)
  {
    hide Tidy, Balanced, AcceptStep, RecvStep, AcquireStep, PostStep, BatchStep, DoneStep, ReleaseStep;
    if InAccept(pc) { AcceptBalance(pc, x, c, gen, p); }
    else if InRecv(pc) { RecvBalance(pc, x, c, p); }
    else if InAcquire(pc) { AcquireBalance(pc, x, c, p); }
    else if InPost(pc) { PostBalance(pc, x, c, p); }
    else if InBatch(pc) { BatchBalance(pc, x, c, p); }
    else if InDone(pc) { DoneBalance(pc, x, c, p); }
    else { ReleaseBalance(pc, x, c, p); }
  }

  lemma SlotInvTidies(pc: Pc, x: Slot, r: Tally, n: nat)
    requires pc != Idle && SlotInv(x, Raise(r, Spot(pc)), n)
    ensures Tidy(pc, x)
  {
    hide Raise, Spot, CountInv, LifeInv, SendInv, QueueInv, BatchInv, OrderInv;
    var t := Raise(r, Spot(pc));
    OwnersHold(pc, t, r);
    BatchIsTidy(x, t, n);
  }

  lemma BatchIsTidy(x: Slot, t: Tally, n: nat)
    requires LifeInv(x, t, n) && SendInv(x, t) && BatchInv(x, t)
    ensures x.freed <= |x.sending|
    ensures t.popped >= 1 ==> x.sending == []
    ensures t.own >= 1 ==> x.sending == []
    ensures t.take >= 1 ==> x.freed == 0
    ensures t.clearing + t.freeing >= 1 ==> x.sendingCount == |x.sending|
  {
  }

  lemma OwnersHold(pc: Pc, t: Tally, r: Tally)
    requires t == Raise(r, Spot(pc))
    ensures pc.AcPopped? ==> t.popped >= 1
    ensures pc.SpSize? ==> t.own >= 1
    ensures pc.SpTake? ==> t.take >= 1
    ensures pc.ScFree? ==> t.clearing >= 1
    ensures pc.RlFree? ==> t.freeing >= 1
  {
  }

  // ---------------------------------------------------------------- the whole server

  lemma {:induction false} SumAppend(s: seq<Callback>, more: seq<Callback>, p: nat)
    requires |more| <= 1
    ensures Sum(s + more, OfJob(p)) == Sum(s, OfJob(p)) + Emitted(more, p)
  {
    if s == [] {
      assert s + more == more;
      if more != [] { assert more[1..] == []; }
    } else {
      assert (s + more)[1..] == s[1..] + more;
      SumAppend(s[1..], more, p);
    }
  }

  predicate Possible(s: State, op: PacketOp) {
    match op
    case Allocate(q) => q !in s.inUse
    case Share(q) => q in s.inUse
    case Drop(q) => q in s.inUse
    case _ => true
  }

  /** If the references of `p` change by what the operation says, its count stays exact. */
  lemma CountStaysExact(s: State, s': State, op: PacketOp, p: nat)
    requires Exact(s, p) && Possible(s, op)
    requires s'.refs == Count(s, op).refs && s'.inUse == Count(s, op).inUse
    requires Tokens(s', p) == Tokens(s, p) + Delta(op, p)
    ensures Exact(s', p)
  {
    hide Tokens;
  }

  lemma NotBroken(s: State, op: PacketOp)
    requires PacketInv(s) && Possible(s, op)
    ensures Count(s, op).broken == s.broken
  {
    hide Tokens;
    if op.Drop? {
      assert Exact(s, op.p);
    }
  }

  lemma TokensMove(s: State, s': State, a: nat, i: nat, pc': Pc, x': Slot, emit: seq<Callback>, p: nat)
    requires s.taken <= |s.log| && s'.taken == s.taken && a < |s.agents| && i < |s.slots| && |emit| <= 1
    requires s'.agents == s.agents[a := pc'] && s'.slots == s.slots[i := x'] && s'.log == s.log + emit
    ensures Tokens(s', p) + s.locals[p] + AgentRefs(s.agents[a], p) + SlotRefs(s.slots[i], p)
            == Tokens(s, p) + s'.locals[p] + AgentRefs(pc', p) + SlotRefs(x', p) + Emitted(emit, p)
  {
    SumUpdate(s.agents, a, pc', OfAgent(p));
    SumUpdate(s.slots, i, x', OfSlot(p));
    assert s'.log[s.taken..] == s.log[s.taken..] + emit;
    SumAppend(s.log[s.taken..], emit, p);
  }

  lemma HeldIsInUse(s: State, a: nat, i: nat, p: nat)
    requires PacketInv(s) && a < |s.agents| && i < |s.slots|
    requires AgentRefs(s.agents[a], p) + SlotRefs(s.slots[i], p) >= 1
    ensures p in s.inUse
  {
    hide AgentRefs, SlotRefs;
    assert Exact(s, p);
    SumCovers(s.agents, a, OfAgent(p));
    SumCovers(s.slots, i, OfSlot(p));
  }

  lemma SharerHolds(pc: Pc, x: Slot, c: Choice)
    ensures OpOf(pc, x, c).Share? ==> AgentRefs(pc, OpOf(pc, x, c).p) >= 1
  {
  }

  lemma OnlyFramesAllocate(pc: Pc, x: Slot, c: Choice)
    ensures OpOf(pc, x, c).Allocate? ==> c.Frame? && OpOf(pc, x, c).p == c.p
    ensures |EmitOf(pc, x)| <= 1
  {
  }

  lemma StepIsPossible(s: State, a: nat, c: Choice)
    requires PacketInv(s) && Enabled(s, Continue(a, c)) && Tidy(s.agents[a], s.slots[s.agents[a].i])
    ensures Possible(s, OpOf(s.agents[a], s.slots[s.agents[a].i], c))
  {
    hide AgentRefs, SlotRefs, OpOf, Tidy, SlotStep, PacketInv, EmitOf;
    var pc, i := s.agents[a], s.agents[a].i;
    var op := OpOf(pc, s.slots[i], c);
    if op.Share? {
      SharerHolds(pc, s.slots[i], c);
      HeldIsInUse(s, a, i, op.p);
    } else if op.Drop? {
      StepBalance(pc, s.slots[i], c, s.gen, op.p);
      HeldIsInUse(s, a, i, op.p);
    } else if op.Allocate? {
      OnlyFramesAllocate(pc, s.slots[i], c);
    }
  }

  lemma ContinueKeepsPackets(s: State, a: nat, c: Choice)
    requires PacketInv(s) && Enabled(s, Continue(a, c)) && Tidy(s.agents[a], s.slots[s.agents[a].i])
    ensures PacketInv(Continued(s, a, c))
    ensures Count(s, OpOf(s.agents[a], s.slots[s.agents[a].i], c)).broken == s.broken
  {
    hide AgentRefs, SlotRefs, OpOf, Tidy, SlotStep, EmitOf, Exact, Tokens, Possible;
    var pc, i := s.agents[a], s.agents[a].i;
    var x := s.slots[i];
    var op, o := OpOf(pc, x, c), SlotStep(pc, x, c, s.gen);
    var s' := Continued(s, a, c);
    OnlyFramesAllocate(pc, x, c);
    CountKeepsShape(s, op);
    StepIsPossible(s, a, c);
    NotBroken(s, op);
    forall p: nat ensures Exact(s', p) {
      assert Exact(s, p);
      StepBalance(pc, x, c, s.gen, p);
      TokensMove(s, s', a, i, o.pc, o.slot, EmitOf(pc, x), p);
      CountStaysExact(s, s', op, p);
    }
  }

  lemma CountKeepsShape(s: State, op: PacketOp)
    ensures var t := Count(s, op);
            t.slots == s.slots && t.agents == s.agents && t.log == s.log && t.taken == s.taken
    ensures forall p: nat :: Count(s, op).locals[p] == s.locals[p] + Handed(op, p)
  {
  }

  lemma StartKeepsPackets(s: State, a: nat, i: nat, b: Begin)
    requires PacketInv(s) && Enabled(s, Start(a, i, b))
    ensures PacketInv(Started(s, a, i, b))
  {
    hide Exact, Tokens, AgentRefs, SlotRefs;
    var s' := Started(s, a, i, b);
    var o := BeginStep(b, i, s.slots[i]);
    assert s'.log == s.log + [];
    forall p: nat ensures Exact(s', p) {
      assert Exact(s, p);
      BeginBalance(b, i, s.slots[i], p);
      TokensMove(s, s', a, i, o.pc, o.slot, [], p);
      CountStaysExact(s, s', Keep, p);
    }
  }

  lemma BeginBalance(b: Begin, i: nat, x: Slot, p: nat)
    ensures AgentRefs(BeginStep(b, i, x).pc, p) == (if b.Acquire? && b.why == ToSend(p) then 1 else 0)
    ensures SlotRefs(BeginStep(b, i, x).slot, p) == SlotRefs(x, p)
    ensures AgentRefs(Idle, p) == 0
  {
    hide Occurrences;
  }

  lemma AppKeepsPackets(s: State, act: Action)
    requires PacketInv(s) && Enabled(s, act) && (act.AppAlloc? || act.AppFree? || act.AppTakesJob?)
    ensures PacketInv(Apply(s, act))
    ensures Apply(s, act).broken == s.broken
  {
    hide Exact, Tokens;
    var s' := Apply(s, act);
    var op := if act.AppAlloc? then Allocate(act.p) else if act.AppFree? then Drop(act.p) else Keep;
    if act.AppFree? {
      LocalIsInUse(s, act.p);
    }
    NotBroken(s, op);
    forall p: nat ensures Exact(s', p) {
      assert Exact(s, p);
      AppMovesTokens(s, act, op, p);
      CountStaysExact(s, s', op, p);
    }
  }

  lemma AppMovesTokens(s: State, act: Action, op: PacketOp, p: nat)
    requires s.taken <= |s.log| && Enabled(s, act)
    requires match act
             case AppAlloc(q) => op == Allocate(q)
             case AppFree(q) => op == Drop(q)
             case AppTakesJob => op == Keep
             case _ => false
    ensures Tokens(Apply(s, act), p) == Tokens(s, p) + Delta(op, p)
  {
    hide AgentRefs, SlotRefs;
    if act.AppTakesJob? {
      assert s.log[s.taken..] == [s.log[s.taken]] + s.log[s.taken + 1..];
    }
  }

  lemma LocalIsInUse(s: State, p: nat)
    requires PacketInv(s) && p in s.locals
    ensures p in s.inUse
  {
    assert Exact(s, p);
  }

  lemma StepKeepsPackets(s: State, act: Action)
    requires SlotsInv(s) && PacketInv(s) && Enabled(s, act)
    ensures PacketInv(Apply(s, act))
    ensures Apply(s, act).broken == s.broken
  {
    hide SlotInv, TallyOf, Started, Continued, Tidy, PacketInv;
    match act
    case Start(a, i, b) =>
      StartKeepsPackets(s, a, i, b);
      StartBreaksNothing(s, a, i, b);
    case Continue(a, c) =>
      var pc, i := s.agents[a], s.agents[a].i;
      var r := MovesOne(s, a, i, Idle);
      SpotHere(pc, i);
      SlotInvTidies(pc, s.slots[i], r, Stacked(s.stack, i));
      ContinueKeepsPackets(s, a, c);
      ContinueKeepsSlots(s, a, c);
      ContinueBreaksNothing(s, a, c);
    case _ => AppKeepsPackets(s, act);
  }

  lemma StartBreaksNothing(s: State, a: nat, i: nat, b: Begin)
    requires Enabled(s, Start(a, i, b))
    ensures Started(s, a, i, b).broken == s.broken
  {
  }

  lemma ContinueBreaksNothing(s: State, a: nat, c: Choice)
    requires Enabled(s, Continue(a, c))
    requires SlotStep(s.agents[a], s.slots[s.agents[a].i], c, s.gen).ok
    requires Count(s, OpOf(s.agents[a], s.slots[s.agents[a].i], c)).broken == s.broken
    ensures Continued(s, a, c).broken == s.broken
  {
    hide SlotStep, OpOf, Count;
  }

  lemma InitPacketInv(s: State)
    requires Init(s)
    ensures PacketInv(s)
  {
    forall p: nat ensures Exact(s, p) {
      SumZero(s.agents, OfAgent(p));
      SumZero(s.slots, OfSlot(p));
    }
  }
}
