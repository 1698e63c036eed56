/** What the calls into the server come to: which acquisitions succeed and what follows from them, and
    what becomes of an accepted connection, of a received frame and of a packet to send. */
module ServerCalls {
  import opened Tally
  import opened Tallying
  import opened Callbacks
  import opened Server
  import opened ServerSystem
  import opened ServerSlots
  import opened ServerPackets
  import opened ServerCallbacks
  import opened ServerTheorems

  // ---------------------------------------------------------------- runs

  lemma {:induction false} RunSnoc(s: State, acts: seq<Action>, act: Action)
    requires Legal(s, acts) && Enabled(Run(s, acts), act)
    ensures Legal(s, acts + [act]) && Run(s, acts + [act]) == Apply(Run(s, acts), act)
    decreases |acts|
  {
    hide Enabled, Apply;
    if acts == [] {
      assert [act][1..] == [];
      assert acts + [act] == [act];
      assert Legal(Apply(s, act), []) && Run(Apply(s, act), []) == Apply(s, act);
    } else {
      assert (acts + [act])[1..] == acts[1..] + [act];
      RunSnoc(Apply(s, acts[0]), acts[1..], act);
    }
  }

  lemma ReachableStep(s: State, act: Action)
    requires Reachable(s) && Enabled(s, act)
    ensures Reachable(Apply(s, act))
  {
    hide Init, Enabled, Apply;
    var start, acts :| Init(start) && Legal(start, acts) && Run(start, acts) == s;
    RunSnoc(start, acts, act);
    assert Init(start) && Legal(start, acts + [act]) && Run(start, acts + [act]) == Apply(s, act);
  }

  predicate Waits(act: Action, a: nat) {
    !((act.Start? || act.Continue?) && act.a == a)
  }

  lemma WaiterStays(s: State, act: Action, a: nat)
    requires Enabled(s, act) && a < |s.agents| && Waits(act, a)
    ensures |Apply(s, act).agents| == |s.agents| && Apply(s, act).agents[a] == s.agents[a]
    ensures |Apply(s, act).slots| == |s.slots|
  {
    hide SlotStep, OpOf, EmitOf;
  }

  // ---------------------------------------------------------------- AcquireSession

  /** While a session is held, its slot is not given to another one. */
  lemma HeldKeepsId(s: State, act: Action, a: nat)
    requires Reachable(s) && Enabled(s, act) && a < |s.agents| && Waits(act, a)
    requires s.agents[a].AqCheck? && !s.agents[a].flag && s.agents[a].i < |s.slots|
    ensures Apply(s, act).slots[s.agents[a].i].sid == s.slots[s.agents[a].i].sid
  {
    hide Reachable, Inv, SlotsInv, IdInv, PacketInv, Apply, Enabled, PhaseOf, SlotLog, IdLog, Expected, TallyOf;
    var i := s.agents[a].i;
    WaiterStays(s, act, a);
    ReachableInv(s);
    InvParts(s);
    NotReleasedWhileHeld(s, a);
    StepKeepsLog(s, act);
    assert NewSession(s, Apply(s, act), i);
    HeldHasId(s, a);
  }

  lemma InvParts(s: State)
    requires Inv(s)
    ensures SlotsInv(s) && IdInv(s) && LogInv(s)
  {
  }

  lemma HeldHasId(s: State, a: nat)
    requires Reachable(s) && a < |s.agents|
    requires s.agents[a].AqCheck? && !s.agents[a].flag && s.agents[a].i < |s.slots|
    ensures s.slots[s.agents[a].i].sid != 0
  {
    hide Reachable, SlotInv, Expected, Transit, TransitsOf, PhaseOf, Refs, Strong, Relies, At;
    var i := s.agents[a].i;
    SlotIn(s, i);
    SumOfTransits(s.agents, i);
    AgentIsCounted(s.agents, a, i);
    HolderRelies(s.agents[a]);
    ReliersAreStrong(TallyOf(s.agents, i), Spot(s.agents[a]));
    HeldSlot(s.slots[i], TallyOf(s.agents, i), Stacked(s.stack, i));
  }

  lemma HolderRelies(pc: Pc)
    ensures pc.AqCheck? && !pc.flag ==> Relies(Spot(pc))
  {
  }

  /** `ioCount` has room for one more reference, so that its sign tells the flag also after an increment. */
  lemma SignTells(s: State, i: nat)
    requires Reachable(s) && i < |s.slots|
    ensures s.slots[i].io + 1 < 0 <==> s.slots[i].io < 0
  {
    hide Reachable, LifeInv, QueueInv, BatchInv, OrderInv, Refs, SlotLog, TallyOf, Sum, IdInv, PacketInv, LogInv;
    ReachableInv(s);
    SlotIn(s, i);
    RefsBounded(s.agents, i);
    FewOutstanding(s.slots[i], TallyOf(s.agents, i), Stacked(s.stack, i));
  }

  lemma FewOutstanding(x: Slot, t: Tally, n: nat)
    requires SlotInv(x, t, n)
    ensures x.recvOut <= 1 && x.sendOut <= 1
  {
    hide CountInv, QueueInv, BatchInv, OrderInv, Owners;
  }

  /** What an acquisition comes to. */
  predicate Owns(s: State, i: nat, id: nat) {
    i < |s.slots| && s.slots[i].sid == id && s.slots[i].io >= 0
  }

  /** An acquisition that has counted itself in, `a`, keeps what it found until it looks. */
  ghost predicate Found(s: State, a: nat, i: nat, id: nat, why: Purpose, found: bool) {
    && Reachable(s) && a < |s.agents| && i < |s.slots|
    && s.agents[a].AqCheck? && s.agents[a].i == i && s.agents[a].id == id && s.agents[a].why == why
    && (!s.agents[a].flag && s.slots[i].sid == id <==> found)
  }

  lemma StartFinds(s: State, a: nat, i: nat, id: nat, why: Purpose)
    requires Reachable(s) && Enabled(s, Start(a, i, Acquire(id, why)))
    ensures Found(Apply(s, Start(a, i, Acquire(id, why))), a, i, id, why, Owns(s, i, id))
  {
    hide Reachable;
    SignTells(s, i);
    ReachableStep(s, Start(a, i, Acquire(id, why)));
  }

  lemma FoundStays(s: State, act: Action, a: nat, i: nat, id: nat, why: Purpose, found: bool)
    requires Found(s, a, i, id, why, found) && Enabled(s, act) && Waits(act, a)
    ensures Found(Apply(s, act), a, i, id, why, found)
  {
    hide Reachable, Apply, Enabled;
    ReachableStep(s, act);
    WaiterStays(s, act, a);
    if !s.agents[a].flag {
      HeldKeepsId(s, act, a);
    }
  }

  lemma {:induction false} FoundStaysLong(s: State, acts: seq<Action>, a: nat, i: nat, id: nat, why: Purpose,
                                          found: bool)
    requires Found(s, a, i, id, why, found) && Legal(s, acts)
    requires forall k :: 0 <= k < |acts| ==> Waits(acts[k], a)
    ensures Found(Run(s, acts), a, i, id, why, found)
    decreases |acts|
  {
    hide Found, Apply, Enabled;
    if acts != [] {
      FoundStays(s, acts[0], a, i, id, why, found);
      assert forall k :: 0 <= k < |acts| - 1 ==> acts[1..][k] == acts[k + 1];
      FoundStaysLong(Apply(s, acts[0]), acts[1..], a, i, id, why, found);
    }
  }

  /** An acquisition succeeds exactly if its session is in its slot and not flagged when it counts itself
      in, whatever all others do before it looks. */
  lemma AcquiresIff(s: State, a: nat, i: nat, id: nat, why: Purpose, acts: seq<Action>, c: Choice)
    requires Reachable(s) && Enabled(s, Start(a, i, Acquire(id, why)))
    requires Legal(Apply(s, Start(a, i, Acquire(id, why))), acts)
    requires forall k :: 0 <= k < |acts| ==> Waits(acts[k], a)
    requires Enabled(Run(Apply(s, Start(a, i, Acquire(id, why))), acts), Continue(a, c))
    ensures var z := Run(Apply(s, Start(a, i, Acquire(id, why))), acts);
            && a < |z.agents| == |Apply(z, Continue(a, c)).agents|
            && Apply(z, Continue(a, c)).agents[a] == if Owns(s, i, id) then AqOk(i, id, why) else AqFail(i, why)
  {
    hide Reachable, Apply, Enabled, Legal, Run;
    StartFinds(s, a, i, id, why);
    FoundStaysLong(Apply(s, Start(a, i, Acquire(id, why))), acts, a, i, id, why, Owns(s, i, id));
    LooksAround(Run(Apply(s, Start(a, i, Acquire(id, why))), acts), a, i, id, why, Owns(s, i, id), c);
  }

  lemma LooksAround(s: State, a: nat, i: nat, id: nat, why: Purpose, found: bool, c: Choice)
    requires Found(s, a, i, id, why, found) && Enabled(s, Continue(a, c))
    ensures |Apply(s, Continue(a, c)).agents| == |s.agents|
    ensures Apply(s, Continue(a, c)).agents[a] == if found then AqOk(i, id, why) else AqFail(i, why)
  {
    hide Reachable;
  }

  /** An open session is acquired as long as its release has not begun. */
  lemma OpenIsOwned(s: State, id: nat)
    requires Reachable(s) && PhaseOf(s.log, id) == Open
    requires id % INDICES < |s.slots| && s.slots[id % INDICES].io >= 0
    ensures Owns(s, id % INDICES, id)
  {
    hide Reachable, PhaseOf;
    CallbacksAreOrderly(s);
  }

  // ---------------------------------------------------------------- what an acquisition is for

  /** `SendPacket` puts the packet behind all others of the session that it was meant for, and goes on to
      post. */
  lemma SendGoesOn(s: State, a: nat, c: Choice)
    requires Reachable(s) && Enabled(s, Continue(a, c))
    ensures |Apply(s, Continue(a, c)).agents| == |s.agents| && |Apply(s, Continue(a, c)).slots| == |s.slots|
    ensures var pc, z := s.agents[a], Apply(s, Continue(a, c)); match pc
            case AqOk(i, id, ToSend(p)) => z.agents[a] == SdShared(i, id, p)
            case SdShared(i, id, p) =>
              && z.agents[a] == SdLinked(i, p) && s.slots[i].sid == id == z.slots[i].sid
              && z.slots[i].linked == s.slots[i].linked + [p] && z.slots[i].queue == s.slots[i].queue + [p]
            case SdLinked(i, p) => z.agents[a] == SpExchange(i) && z.locals == s.locals + multiset{p}
            case _ => true
  {
    hide Reachable, PhaseOf;
    if s.agents[a].SdShared? {
      AcquiredIsRight(s, a);
    }
  }

  /** `Disconnect` closes the socket of the session that it was meant for. */
  lemma DisconnectGoesOn(s: State, a: nat, c: Choice)
    requires Reachable(s) && Enabled(s, Continue(a, c)) && s.agents[a].AqOk? && s.agents[a].why.ToDisconnect?
    ensures var i, z := s.agents[a].i, Apply(s, Continue(a, c));
            && |z.agents| == |s.agents| && |z.slots| == |s.slots| && z.agents[a] == Return(i)
            && s.slots[i].sid == s.agents[a].id == z.slots[i].sid && z.slots[i].shut
  {
    hide Reachable, PhaseOf;
    AcquiredIsRight(s, a);
  }

  /** A failed `SendPacket` gives the packet back. */
  lemma FailureGivesBack(s: State, a: nat, c: Choice)
    requires Enabled(s, Continue(a, c)) && s.agents[a].AqFail? && s.agents[a].why.ToSend?
    ensures Apply(s, Continue(a, c)).locals == s.locals + multiset{s.agents[a].why.packet}
  {
  }

  // ---------------------------------------------------------------- what becomes of connections and frames

  /** An accepted connection gets a new session that is counted, opened, told and received from. */
  lemma AcceptGoesOn(s: State, a: nat, c: Choice)
    requires Enabled(s, Continue(a, c))
    ensures |Apply(s, Continue(a, c)).agents| == |s.agents| && |Apply(s, Continue(a, c)).slots| == |s.slots|
    ensures var pc, z := s.agents[a], Apply(s, Continue(a, c)); match pc
            case AcPopped(i) =>
              if c.Succeeds? then
                var id := (s.gen + 1) * 65536 + i; z.agents[a] == AcReady(i, id) && z.slots[i].sid == id
              else z.agents[a] == Idle && z.stack == [i] + s.stack
            case AcReady(i, id) => z.agents[a] == AcCounted(i, id) && z.slots[i].io == s.slots[i].io + 1
            case AcCounted(i, id) => z.agents[a] == AcLive(i, id) && (s.slots[i].io >= -RELEASE ==> z.slots[i].io >= 0)
            case AcLive(i, id) => z.agents[a] == AcTold(i) && z.log == s.log + [Accepted(id)]
            case AcTold(i) => z.agents[a] == AcRecv(i)
            case AcRecv(i) => c.Succeeds? ==> z.agents[a] == Return(i) && z.slots[i].recvOut == s.slots[i].recvOut + 1
            case _ => true
  {
    hide Count, OpOf;
    CountKeepsSlots(s, OpOf(s.agents[a], s.slots[s.agents[a].i], c));
  }

  /** A complete frame whose checksum fits becomes a `Received` callback of its session, before its packet
      is freed; then the next frame is looked at, and in the end another receive is posted. */
  lemma ReceiveGoesOn(s: State, a: nat, c: Choice)
    requires Enabled(s, Continue(a, c))
    ensures |Apply(s, Continue(a, c)).agents| == |s.agents| && |Apply(s, Continue(a, c)).slots| == |s.slots|
    ensures var pc, z := s.agents[a], Apply(s, Continue(a, c)); match pc
            case RvLoop(i) =>
              (match c
               case Frame(p) => z.agents[a] == RvPacket(i, p) && p in z.inUse
               case Succeeds => z.agents[a] == Idle && z.slots[i].recvOut == s.slots[i].recvOut + 1
               case _ => z.agents[a] == Return(i))
            case RvPacket(i, p) => z.agents[a] == if c.Succeeds? then RvShared(i, p) else Return(i)
            case RvShared(i, p) => z.agents[a] == RvFree(i, p) && z.log == s.log + [Received(s.slots[i].sid, p)]
            case RvFree(i, _) => z.agents[a] == RvLoop(i)
            case _ => true
  {
    hide Count;
    CountKeepsSlots(s, OpOf(s.agents[a], s.slots[s.agents[a].i], c));
    CountAllocates(s, OpOf(s.agents[a], s.slots[s.agents[a].i], c));
  }

  /** What a completion is handled with: a good one of a receive by looking at the stream, a good one of a
      send by freeing what was sent, and a bad one of either by giving its reference back, which leaves the
      send side taken. */
  lemma CompletionGoesOn(s: State, a: nat, i: nat, b: Begin)
    requires Enabled(s, Start(a, i, b)) && (b.RecvDone? || b.SendDone?)
    ensures var x, z := s.slots[i], Apply(s, Start(a, i, b));
            && |z.agents| == |s.agents| && |z.slots| == |s.slots|
            && z.agents[a] == (if !b.ok then Return(i) else if b.RecvDone? then RvLoop(i) else ScFree(i))
            && z.slots[i].isSending == x.isSending && z.slots[i].io == x.io
            && z.slots[i].recvOut == (if b.RecvDone? then x.recvOut - 1 else x.recvOut)
            && z.slots[i].sendOut == (if b.SendDone? then x.sendOut - 1 else x.sendOut)
  {
  }

  lemma CountAllocates(s: State, op: PacketOp)
    ensures op.Allocate? ==> op.p in Count(s, op).inUse
  {
  }

  /** A batch stops short of 100 packets only where the queue had none left that was counted. */
  lemma BatchesAreFull(s: State, a: nat, c: Choice)
    requires Enabled(s, Continue(a, c)) && s.agents[a].SpBatch?
    ensures |Apply(s, Continue(a, c)).agents| == |s.agents|
    ensures var i, z := s.agents[a].i, Apply(s, Continue(a, c));
            if |s.slots[i].sending| < 100 && s.slots[i].size >= 1 then z.agents[a] == SpTake(i)
            else z.agents[a] == SpStore(i) || z.agents[a] == SpRestore(i)
  {
  }
}
