/** Every step of the server keeps every slot in order, and no agent ever works under a session ID
    that is not the slot's. */
module ServerSlots {
  import opened Tally
  import opened Tallying
  import opened Callbacks
  import opened Server
  import opened SlotSteps
  import opened ServerSystem

  /** An agent stays on its slot, only the acceptor renames it, and an ID that an agent newly
      carries is the slot's. */
  predicate Proper(pc: Pc, x: Slot, o: Outcome) {
    && pc != Idle
    && (o.pc == Idle || o.pc.i == pc.i)
    && (o.slot.sid == x.sid || (pc.AcPopped? && o.slot.sid / INDICES >= 1))
    && (KnownId(o.pc) >= 0 ==> KnownId(o.pc) == if KnownId(pc) >= 0 then KnownId(pc) else o.slot.sid)
  }

  lemma ProperAccept(pc: Pc, x: Slot, c: Choice, gen: nat)
    requires InAccept(pc)
    ensures Proper(pc, x, AcceptStep(pc, x, c, gen))
  {
  }

  lemma ProperRecv(pc: Pc, x: Slot, c: Choice)
    requires InRecv(pc)
    ensures Proper(pc, x, RecvStep(pc, x, c))
  {
  }

  lemma ProperAcquire(pc: Pc, x: Slot)
    requires InAcquire(pc)
    ensures Proper(pc, x, AcquireStep(pc, x))
  {
  }

  lemma ProperPost(pc: Pc, x: Slot)
    requires InPost(pc)
    ensures Proper(pc, x, PostStep(pc, x))
  {
  }

  lemma ProperBatch(pc: Pc, x: Slot, c: Choice)
    requires InBatch(pc)
    ensures Proper(pc, x, BatchStep(pc, x, c))
  {
  }

  lemma ProperDone(pc: Pc, x: Slot)
    requires InDone(pc)
    ensures Proper(pc, x, DoneStep(pc, x))
  {
  }

  lemma ProperRelease(pc: Pc, x: Slot)
    requires InRelease(pc)
    ensures Proper(pc, x, ReleaseStep(pc, x))
  {
  }

  lemma StepIsProper(pc: Pc, x: Slot, c: Choice, gen: nat)
    requires pc != Idle
    ensures Proper(pc, x, SlotStep(pc, x, c, gen))
  {
    hide Proper, AcceptStep, RecvStep, AcquireStep, PostStep, BatchStep, DoneStep, ReleaseStep;
    if InAccept(pc) { ProperAccept(pc, x, c, gen); }
    else if InRecv(pc) { ProperRecv(pc, x, c); }
    else if InAcquire(pc) { ProperAcquire(pc, x); }
    else if InPost(pc) { ProperPost(pc, x); }
    else if InBatch(pc) { ProperBatch(pc, x, c); }
    else if InDone(pc) { ProperDone(pc, x); }
    else { ProperRelease(pc, x); }
  }

  lemma CountKeepsSlots(s: State, op: PacketOp)
    ensures var t := Count(s, op);
            t.slots == s.slots && t.agents == s.agents && t.stack == s.stack
            && t.gen == s.gen && t.log == s.log && t.taken == s.taken
  {
  }

  lemma PushStacks(stack: seq<nat>, i: nat, j: nat)
    ensures Stacked([i] + stack, j) == Stacked(stack, j) + if i == j then 1 else 0
  {
  }

  lemma PopStacks(stack: seq<nat>, j: nat)
    requires stack != []
    ensures Stacked(stack, j) == Stacked(stack[1..], j) + if stack[0] == j then 1 else 0
  {
    assert stack == [stack[0]] + stack[1..];
  }

  lemma MovesOne(s: State, a: nat, i: nat, pc': Pc) returns (r: Tally)
    requires SlotsInv(s) && a < |s.agents|
    ensures TallyOf(s.agents, i) == Raise(r, Here(s.agents[a], i))
    ensures TallyOf(s.agents[a := pc'], i) == Raise(r, Here(pc', i))
    ensures Refs(Raise(r, Here(pc', i))) < RELEASE - 2
  {
    hide Raise, SlotInv, Here, Refs;
    r := Apart(s.agents, a, i, pc');
    RefsBounded(s.agents[a := pc'], i);
  }

  lemma ContinueKeepsSlots(s: State, a: nat, c: Choice)
    requires SlotsInv(s) && Enabled(s, Continue(a, c))
    ensures SlotsInv(Continued(s, a, c))
    ensures SlotStep(s.agents[a], s.slots[s.agents[a].i], c, s.gen).ok
  {
    hide SlotInv, Raise, TallyOf, SlotStep, OpOf, EmitOf, Stacked, Refs, Spot;
    var pc := s.agents[a];
    var i := pc.i;
    var x := s.slots[i];
    var o := SlotStep(pc, x, c, s.gen);
    var s' := Continued(s, a, c);
    CountKeepsSlots(s, OpOf(pc, x, c));
    StepIsProper(pc, x, c, s.gen);
    var r := MovesOne(s, a, i, o.pc);
    SpotHere(o.pc, i);
    StepKeeps(pc, x, r, Stacked(s.stack, i), c, s.gen);
    forall j: nat { PushStacks(s.stack, i, j); }
    OtherSlotsKeep(s, s', a, i, o.pc);
  }

  lemma SpotHere(pc: Pc, i: nat)
    requires pc == Idle || pc.i == i
    ensures Here(pc, i) == Spot(pc)
  {
  }

  lemma StartKeepsSlots(s: State, a: nat, i: nat, b: Begin)
    requires SlotsInv(s) && Enabled(s, Start(a, i, b))
    ensures SlotsInv(Started(s, a, i, b))
  {
    hide SlotInv, Raise, TallyOf, Stacked, Refs, Spot;
    var x := s.slots[i];
    var o := BeginStep(b, i, x);
    var s' := Started(s, a, i, b);
    var r := MovesOne(s, a, i, o.pc);
    SpotHere(o.pc, i);
    SpotHere(Idle, i);
    IdleSpot();
    NowhereRaisesNothing(r);
    if b.Accept? {
      forall j: nat { PopStacks(s.stack, j); }
      PopStacks(s.stack, i);
    }
    BeginKeeps(b, i, x, r, Stacked(s.stack, i));
    OtherSlotsKeep(s, s', a, i, o.pc);
  }

  lemma IdleSpot()
    ensures Spot(Idle) == Nowhere
  {
  }

  lemma StepKeepsSlots(s: State, act: Action)
    requires SlotsInv(s) && Enabled(s, act)
    ensures SlotsInv(Apply(s, act))
  {
    hide SlotInv, TallyOf, Started, Continued;
    match act
    case Start(a, i, b) => StartKeepsSlots(s, a, i, b);
    case Continue(a, c) => ContinueKeepsSlots(s, a, c);
    case _ =>
  }

  // ---------------------------------------------------------------- session IDs

  /** An agent that carries a session ID works on the slot that has it. */
  ghost predicate IdInv(s: State) {
    forall a :: 0 <= a < |s.agents| ==> KnowsRight(s, s.agents[a])
  }

  ghost predicate KnowsRight(s: State, pc: Pc) {
    KnownId(pc) >= 0 ==> pc.i < |s.slots| && s.slots[pc.i].sid == KnownId(pc)
  }

  /** While an index has been taken for a new session nobody carries an ID for that slot. */
  lemma AloneOnSlot(s: State, a: nat, b: nat)
    requires SlotsInv(s) && a < |s.agents| && b < |s.agents| && a != b
    requires s.agents[a].AcPopped? && s.agents[a].i < |s.slots|
    requires s.agents[b] != Idle && s.agents[b].i == s.agents[a].i
    ensures KnownId(s.agents[b]) < 0
  {
    var i := s.agents[a].i;
    var r := Pair(s.agents, a, b, i);
    PoppedExcludes(s.slots[i], r, s.agents[b], Stacked(s.stack, i));
  }

  lemma PoppedExcludes(x: Slot, r: Tally, pc: Pc, n: nat)
    requires LifeInv(x, Raise(Raise(r, Spot(pc)), Popped), n)
    ensures KnownId(pc) < 0
  {
    hide Raise;
    RaiseFields(r, Spot(pc));
    RaiseFields(Raise(r, Spot(pc)), Popped);
  }

  lemma ContinueKeepsIds(s: State, a: nat, c: Choice)
    requires SlotsInv(s) && IdInv(s) && Enabled(s, Continue(a, c))
    ensures IdInv(Continued(s, a, c))
  {
    hide SlotInv, TallyOf, SlotStep, OpOf, EmitOf, KnownId, SlotsInv;
    var pc, i := s.agents[a], s.agents[a].i;
    var s' := Continued(s, a, c);
    CountKeepsSlots(s, OpOf(pc, s.slots[i], c));
    StepIsProper(pc, s.slots[i], c, s.gen);
    assert KnowsRight(s, pc);
    IdleKnowsNothing(pc);
    var o := SlotStep(pc, s.slots[i], c, s.gen);
    assert s'.slots == s.slots[i := o.slot] && s'.agents == s.agents[a := o.pc];
    forall b: nat | b < |s.agents| ensures KnowsRight(s', s'.agents[b]) {
      if b == a {
        assert KnownId(o.pc) >= 0 ==> o.pc.i == i && o.slot.sid == KnownId(o.pc);
      } else {
        assert KnowsRight(s, s.agents[b]);
        if pc.AcPopped? && s.agents[b] != Idle && s.agents[b].i == i {
          AloneOnSlot(s, a, b);
        }
        if s.agents[b] != Idle && s.agents[b].i == i {
          assert KnowsRight(s', s.agents[b]);
        }
      }
    }
  }

  lemma IdleKnowsNothing(pc: Pc)
    ensures KnownId(Idle) < 0 && (pc.AcPopped? ==> KnownId(pc) < 0)
  {
  }

  lemma StartKeepsIds(s: State, a: nat, i: nat, b: Begin)
    requires IdInv(s) && Enabled(s, Start(a, i, b))
    ensures IdInv(Started(s, a, i, b))
  {
    var s' := Started(s, a, i, b);
    forall u: nat | u < |s.agents| ensures KnowsRight(s', s'.agents[u]) {
      assert KnowsRight(s, s.agents[u]);
    }
  }

  lemma StepKeepsIds(s: State, act: Action)
    requires SlotsInv(s) && IdInv(s) && Enabled(s, act)
    ensures IdInv(Apply(s, act))
  {
    hide SlotsInv, Started, Continued, KnownId;
    match act
    case Start(a, i, b) => StartKeepsIds(s, a, i, b);
    case Continue(a, c) => ContinueKeepsIds(s, a, c);
    case _ =>
      forall u: nat | u < |s.agents| ensures KnowsRight(Apply(s, act), s.agents[u]) {
        assert KnowsRight(s, s.agents[u]);
      }
  }
}
