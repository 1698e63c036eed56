/** No activity of the server gets stuck: an agent that nobody interferes with is done after a number of
    steps that its slot bounds, unless the network brings it further frames. */
module ServerProgress {
  import opened Tally
  import opened Callbacks
  import opened Server
  import opened ServerSystem
  import opened ServerSlots
  import opened ServerPackets
  import opened ServerCallbacks
  import opened ServerTheorems

  /** The packets that are still to be freed in `sendingPackets`. */
  function ToFree(x: Slot): nat {
    if x.freed < x.sendingCount then x.sendingCount - x.freed else 0
  }

  /** Steps of a release, and of what ends in one, at most. */
  function Rest(x: Slot): nat {
    ToFree(x) + 3 * |x.queue|
  }

  /** How many more steps an agent takes at most if nobody else moves. */
  function Left(pc: Pc, x: Slot): nat {
    match pc
    case Idle => 0
    case AcPopped(_) => Rest(x) + 14
    case AcReady(_, _) => Rest(x) + 13
    case AcCounted(_, _) => Rest(x) + 12
    case AcLive(_, _) => Rest(x) + 11
    case AcTold(_) => Rest(x) + 10
    case AcRecv(_) => Rest(x) + 9
    case AcRecvBad(_) => Rest(x) + 8
    case RvPacket(_, _) => Rest(x) + 11
    case RvShared(_, _) => Rest(x) + 10
    case RvFree(_, _) => Rest(x) + 9
    case RvLoop(_) => Rest(x) + 8
    case AqCheck(_, _, _, _) => Rest(x) + 24
    case AqOk(_, _, _) => Rest(x) + 23
    case SdShared(_, _, _) => Rest(x) + 22
    case SdLinked(_, _) => Rest(x) + 18
    case SpExchange(_) => Rest(x) + 17
    case SpSize(_) => Rest(x) + 16
    case SpClear(_) => if x.size == 0 then Rest(x) + 9 else Rest(x) + 19
    case SpRecheck(_) => if x.size == 0 then Rest(x) + 8 else Rest(x) + 18
    case SpBatch(_) => |x.sending| + 3 * |x.queue| + 14
    case SpTake(_) => |x.sending| + 3 * |x.queue| + 13
    case SpRestore(_) => |x.sending| + 3 * |x.queue| + 12
    case SpStore(_) => |x.sending| + 3 * |x.queue| + 11
    case SpCount(_) => Rest(x) + 10
    case SpSend(_) => Rest(x) + 9
    case SpBad(_) => Rest(x) + 8
    case ScFree(_) => Rest(x) + 19
    case ScClear(_) => Rest(x) + 18
    case AqFail(_, _) => Rest(x) + 7
    case Return(_) => Rest(x) + 7
    case RelCas(_) => Rest(x) + 6
    case RlFree(_) => Rest(x) + 5
    case RlDrain(_) => 3 * |x.queue| + 4
    case RlTake(_) => 3 * |x.queue| + 3
    case RlPacket(_, _) => 3 * |x.queue| + 5
    case RlRestore(_) => 3
    case RlTell(_) => 2
    case RlPush(_) => 1
  }

  predicate Nears(pc: Pc, x: Slot, o: Outcome) {
    Left(o.pc, o.slot) < Left(pc, x)
  }

  lemma AcceptNears(pc: Pc, x: Slot, c: Choice, gen: nat)
    requires InAccept(pc)
    ensures Nears(pc, x, AcceptStep(pc, x, c, gen))
  {
  }

  lemma RecvNears(pc: Pc, x: Slot, c: Choice)
    requires InRecv(pc) && !(pc.RvLoop? && c.Frame?)
    ensures Nears(pc, x, RecvStep(pc, x, c))
  {
  }

  lemma AcquireNears(pc: Pc, x: Slot)
    requires InAcquire(pc)
    ensures Nears(pc, x, AcquireStep(pc, x))
  {
  }

  lemma PostNears(pc: Pc, x: Slot)
    requires InPost(pc)
    requires pc.SpSize? ==> x.size >= 0
    ensures Nears(pc, x, PostStep(pc, x))
  {
  }

  lemma FillNears(pc: Pc, x: Slot, c: Choice)
    requires pc.SpBatch? || pc.SpTake? || pc.SpRestore?
    requires pc.SpTake? ==> x.queue != []
    ensures Nears(pc, x, BatchStep(pc, x, c))
  {
  }

  lemma HandOverNears(pc: Pc, x: Slot, c: Choice)
    requires pc.SpStore? || pc.SpCount? || pc.SpSend? || pc.SpBad?
    requires pc.SpStore? ==> x.freed == 0
    ensures Nears(pc, x, BatchStep(pc, x, c))
  {
  }

  lemma DoneNears(pc: Pc, x: Slot)
    requires InDone(pc)
    ensures Nears(pc, x, DoneStep(pc, x))
  {
  }

  lemma DrainNears(pc: Pc, x: Slot)
    requires pc.RlDrain? || pc.RlTake? || pc.RlPacket? || pc.RlRestore?
    requires pc.RlTake? ==> x.queue != []
    ensures Nears(pc, x, ReleaseStep(pc, x))
  {
  }

  lemma ReleaseNears(pc: Pc, x: Slot)
    requires pc.RelCas? || pc.RlFree? || pc.RlTell? || pc.RlPush?
    ensures Nears(pc, x, ReleaseStep(pc, x))
  {
  }

  // What agents never wait for: a counter below 0, a queue without the packet that they have reserved.

  lemma OwnerSeesCount(x: Slot, r: Tally, n: nat)
    requires SlotInv(x, r.(own := r.own + 1), n)
    ensures x.size >= 0
  {
    hide CountInv, OrderInv, RecvInv, BatchInv;
  }

  lemma TakerSeesPacket(x: Slot, r: Tally, n: nat)
    requires SlotInv(x, r.(take := r.take + 1), n)
    ensures x.queue != []
  {
    hide CountInv, LifeInv, SendInv, OrderInv, RecvInv, BatchInv;
  }

  lemma DrainerSeesPacket(x: Slot, r: Tally, n: nat)
    requires SlotInv(x, r.(drainTake := r.drainTake + 1), n)
    ensures x.queue != []
  {
    hide CountInv, LifeInv, SendInv, OrderInv, RecvInv, BatchInv;
  }

  lemma StorerIsClean(x: Slot, r: Tally, n: nat)
    requires SlotInv(x, r.(full := r.full + 1), n)
    ensures x.freed == 0
  {
    hide CountInv, LifeInv, SendInv, OrderInv, RecvInv, QueueInv;
  }

  lemma NothingMissing(x: Slot, r: Tally, pc: Pc, n: nat)
    requires SlotInv(x, Raise(r, Spot(pc)), n)
    ensures pc.SpSize? ==> x.size >= 0
    ensures pc.SpTake? || pc.RlTake? ==> x.queue != []
    ensures pc.SpStore? ==> x.freed == 0
  {
    hide SlotInv;
    match pc
    case SpSize(_) => OwnerSeesCount(x, r, n);
    case SpTake(_) => TakerSeesPacket(x, r, n);
    case RlTake(_) => DrainerSeesPacket(x, r, n);
    case SpStore(_) => StorerIsClean(x, r, n);
    case _ =>
  }

  lemma StepNears(pc: Pc, x: Slot, r: Tally, n: nat, c: Choice, gen: nat)
    requires pc != Idle && SlotInv(x, Raise(r, Spot(pc)), n) && !(pc.RvLoop? && c.Frame?)
    ensures Nears(pc, x, SlotStep(pc, x, c, gen))
  {
    hide SlotInv, Raise, Spot, Nears, AcceptStep, RecvStep, AcquireStep, PostStep, BatchStep, DoneStep, ReleaseStep;
    NothingMissing(x, r, pc, n);
    if InAccept(pc) { AcceptNears(pc, x, c, gen); }
    else if InRecv(pc) { RecvNears(pc, x, c); }
    else if InAcquire(pc) { AcquireNears(pc, x); }
    else if InPost(pc) { PostNears(pc, x); }
    else if pc.SpBatch? || pc.SpTake? || pc.SpRestore? { FillNears(pc, x, c); }
    else if InBatch(pc) { HandOverNears(pc, x, c); }
    else if InDone(pc) { DoneNears(pc, x); }
    else if pc.RlDrain? || pc.RlTake? || pc.RlPacket? || pc.RlRestore? { DrainNears(pc, x); }
    else { ReleaseNears(pc, x); }
  }

  /** How many more steps the agent `a` of the server takes at most if nobody else moves. */
  function LeftOf(s: State, a: nat): nat
    requires a < |s.agents|
  {
    if s.agents[a] == Idle then 0
    else if s.agents[a].i < |s.slots| then Left(s.agents[a], s.slots[s.agents[a].i]) else 0
  }

  /** The step of an agent that takes no further frame. */
  predicate NoFrame(s: State, a: nat, c: Choice) {
    a < |s.agents| && !(s.agents[a].RvLoop? && c.Frame?)
  }

  lemma AgentNears(s: State, a: nat, c: Choice)
    requires Inv(s) && Enabled(s, Continue(a, c)) && NoFrame(s, a, c)
    ensures |Apply(s, Continue(a, c)).agents| == |s.agents|
    ensures LeftOf(Apply(s, Continue(a, c)), a) < LeftOf(s, a)
  {
    hide SlotInv, IdInv, PacketInv, LogInv, Raise, TallyOf, SlotStep, OpOf, EmitOf, Left, Spot, Stacked;
    var pc, i := s.agents[a], s.agents[a].i;
    var o := SlotStep(pc, s.slots[i], c, s.gen);
    CountKeepsSlots(s, OpOf(pc, s.slots[i], c));
    StepIsProper(pc, s.slots[i], c, s.gen);
    var r := MovesOne(s, a, i, o.pc);
    SpotHere(pc, i);
    StepNears(pc, s.slots[i], r, Stacked(s.stack, i), c, s.gen);
    DoneIsDone(o.slot);
  }

  lemma DoneIsDone(x: Slot)
    ensures Left(Idle, x) == 0
  {
  }

  ghost predicate OnlyThisAgent(s: State, acts: seq<Action>, a: nat)
    requires Legal(s, acts)
    decreases |acts|
  {
    acts != [] ==>
      && acts[0].Continue? && acts[0].a == a && NoFrame(s, a, acts[0].c)
      && OnlyThisAgent(Apply(s, acts[0]), acts[1..], a)
  }

  lemma LeftIsBounded(s: State, a: nat)
    requires a < |s.agents| && s.agents[a] != Idle && s.agents[a].i < |s.slots|
    ensures var x := s.slots[s.agents[a].i];
            LeftOf(s, a) <= ToFree(x) + |x.sending| + 3 * |x.queue| + 24
  {
  }

  /** An activity that nobody interferes with, wherever it is, is over after at most one step for each
      packet to be freed and each to be sent, three for each packet in the queue, and 24 more. */
  lemma {:induction false} AloneItEnds(s: State, acts: seq<Action>, a: nat)
    requires Inv(s) && Legal(s, acts) && a < |s.agents| && OnlyThisAgent(s, acts, a)
    ensures |Run(s, acts).agents| == |s.agents|
    ensures |acts| + LeftOf(Run(s, acts), a) <= LeftOf(s, a)
    ensures s.agents[a] != Idle && s.agents[a].i < |s.slots| ==>
              var x := s.slots[s.agents[a].i]; LeftOf(s, a) <= ToFree(x) + |x.sending| + 3 * |x.queue| + 24
    decreases |acts|
  {
    hide Inv, Enabled, Apply, NoFrame, LeftOf;
    if s.agents[a] != Idle && s.agents[a].i < |s.slots| { LeftIsBounded(s, a); }
    if acts != [] {
      StepKeepsInv(s, acts[0]);
      AgentNears(s, a, acts[0].c);
      AloneItEnds(Apply(s, acts[0]), acts[1..], a);
    }
  }

  /** As long as an activity is not over, it can take a step. */
  lemma NeverStuck(s: State, a: nat)
    requires a < |s.agents| && s.agents[a] != Idle && s.agents[a].i < |s.slots|
    ensures Enabled(s, Continue(a, Succeeds)) && NoFrame(s, a, Succeeds) && LeftOf(s, a) >= 1
  {
  }
}
