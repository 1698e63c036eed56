/** What holds in every run of the server, from `Start` on, whatever the clients, the network and the
    scheduler do. */
module ServerTheorems {
  import opened Tally
  import opened Tallying
  import opened Callbacks
  import opened Server
  import opened ServerSystem
  import opened ServerSlots
  import opened ServerPackets
  import opened ServerCallbacks

  ghost predicate Inv(s: State) {
    SlotsInv(s) && IdInv(s) && PacketInv(s) && LogInv(s) && !s.broken
  }

  predicate Legal(s: State, acts: seq<Action>)
    decreases |acts|
  {
    acts == [] || (Enabled(s, acts[0]) && Legal(Apply(s, acts[0]), acts[1..]))
  }

  function Run(s: State, acts: seq<Action>): State
    requires Legal(s, acts)
    decreases |acts|
  {
    if acts == [] then s else Run(Apply(s, acts[0]), acts[1..])
  }

  ghost predicate Reachable(s: State) {
    exists start, acts :: Init(start) && Legal(start, acts) && Run(start, acts) == s
  }

  lemma InitInv(s: State)
    requires Init(s)
    ensures Inv(s)
  {
    hide SlotsInv, PacketInv, LogInv;
    InitSlotsInv(s);
    InitPacketInv(s);
    InitLogInv(s);
    InitIds(s);
  }

  lemma InitIds(s: State)
    requires Init(s)
    ensures IdInv(s)
  {
  }

  lemma StepKeepsInv(s: State, act: Action)
    requires Inv(s) && Enabled(s, act)
    ensures Inv(Apply(s, act))
  {
    hide SlotsInv, IdInv, PacketInv, LogInv, Apply, Enabled;
    StepKeepsSlots(s, act);
    StepKeepsIds(s, act);
    StepKeepsPackets(s, act);
    StepKeepsLog(s, act);
  }

  lemma {:induction false} RunKeepsInv(s: State, acts: seq<Action>)
    requires Inv(s) && Legal(s, acts)
    ensures Inv(Run(s, acts))
    decreases |acts|
  {
    hide Inv, Apply, Enabled;
    if acts != [] {
      StepKeepsInv(s, acts[0]);
      RunKeepsInv(Apply(s, acts[0]), acts[1..]);
    }
  }

  lemma ReachableInv(s: State)
    requires Reachable(s)
    ensures Inv(s)
  {
    hide Inv, Init, Legal, Run;
    var start, acts :| Init(start) && Legal(start, acts) && Run(start, acts) == s;
    InitInv(start);
    RunKeepsInv(start, acts);
  }

  // ---------------------------------------------------------------- finding agents

  /** How many agents are at one kind of point. */
  function At(t: Tally, k: Kind): nat {
    match k
    case Nowhere => 0
    case Popped => t.popped
    case Initd => t.initd
    case Inc => t.inc
    case Live => t.live
    case Told => t.told
    case Recv => t.recv
    case RecvBad => t.recvBad
    case Rv => t.rv
    case Weak => t.weak
    case Held => t.held
    case Linked => t.linked
    case Wake => t.wake
    case Own => t.own
    case Batch => t.batch
    case Take => t.take
    case Restore => t.restore
    case Full => t.full
    case Ready => t.ready
    case Posting => t.posting
    case Bad => t.bad
    case Clearing => t.clearing
    case Casing => t.casing
    case Freeing => t.freeing
    case Draining => t.draining
    case DrainTake => t.drainTake
    case DrainEnd => t.drainEnd
    case Telling => t.telling
    case Pushing => t.pushing
  }

  lemma RaiseAt(t: Tally, j: Kind, k: Kind)
    requires k != Nowhere
    ensures At(Raise(t, j), k) == At(t, k) + Is(j, k)
  {
    hide Raise;
    RaiseFields(t, j);
  }

  lemma {:induction false} FindAgent(agents: seq<Pc>, i: nat, k: Kind) returns (a: nat)
    requires k != Nowhere && At(TallyOf(agents, i), k) >= 1
    ensures a < |agents| && agents[a] != Idle && agents[a].i == i && Spot(agents[a]) == k
  {
    hide At, Raise, Spot;
    if agents == [] {
      NobodyAt(k);
      assert false;
    } else {
      RaiseAt(TallyOf(agents[1..], i), Here(agents[0], i), k);
      if Here(agents[0], i) == k {
        a := 0;
      } else {
        var b := FindAgent(agents[1..], i, k);
        a := b + 1;
      }
    }
  }

  lemma NobodyAt(k: Kind)
    ensures At(NOBODY, k) == 0
  {
  }

  lemma {:induction false} AgentIsCounted(agents: seq<Pc>, a: nat, i: nat)
    requires a < |agents| && agents[a] != Idle && agents[a].i == i
    ensures At(TallyOf(agents, i), Spot(agents[a])) >= 1
  {
    hide At, Raise, Spot;
    SpotSomewhere(agents[a]);
    RaiseAt(TallyOf(agents[1..], i), Here(agents[0], i), Spot(agents[a]));
    if a > 0 {
      AgentIsCounted(agents[1..], a - 1, i);
    }
  }

  lemma SpotSomewhere(pc: Pc)
    ensures pc != Idle ==> Spot(pc) != Nowhere
  {
  }

  // ---------------------------------------------------------------- counting agents by weight

  /** Whether an agent runs `RecvProc` or is about to post the first receive. */
  function RecvWeight(k: Kind): nat {
    match k
    case Live | Told | Recv | Rv => 1
    case _ => 0
  }

  function On(i: nat, weight: Kind -> nat): Pc -> nat {
    pc => weight(Here(pc, i))
  }

  function ReceiversOf(t: Tally): nat {
    t.live + t.told + t.recv + t.rv
  }

  function TransitsOf(t: Tally): nat {
    Accepting(t) + Releasing(t)
  }

  lemma ReceiversAdd(t: Tally, k: Kind)
    ensures ReceiversOf(Raise(t, k)) == ReceiversOf(t) + RecvWeight(k)
  {
  }

  lemma TransitsAdd(t: Tally, k: Kind)
    ensures TransitsOf(Raise(t, k)) == TransitsOf(t) + Transit(k)
  {
    hide Raise, Transit, Accepting, Releasing;
    GroupCounts(t, k);
  }

  lemma NobodyCounts(i: nat)
    ensures var t := TallyOf([], i); Refs(t) == Owners(t) == ReceiversOf(t) == TransitsOf(t) == 0
  {
    hide Refs, Owners, ReceiversOf, TransitsOf, TallyOf;
    IdleCountsNothing([], i);
    NoOneCountsEither(TallyOf([], i));
  }

  lemma NoOneCountsEither(t: Tally)
    requires NoOne(t)
    ensures Refs(t) == Owners(t) == ReceiversOf(t) == TransitsOf(t) == 0
  {
    hide Refs, Owners, Accepting, Releasing;
    NoOneCounts(t);
  }

  lemma {:induction false} SumOfRefs(agents: seq<Pc>, i: nat)
    ensures Refs(TallyOf(agents, i)) == Sum(agents, On(i, RefWeight))
  {
    hide Raise, Here, Refs, RefWeight;
    if agents == [] {
      NobodyCounts(i);
    } else {
      RefsAdd(TallyOf(agents[1..], i), Here(agents[0], i));
      SumOfRefs(agents[1..], i);
    }
  }

  lemma {:induction false} SumOfOwners(agents: seq<Pc>, i: nat)
    ensures Owners(TallyOf(agents, i)) == Sum(agents, On(i, OwnWeight))
  {
    hide Raise, Here, Owners, OwnWeight;
    if agents == [] {
      NobodyCounts(i);
    } else {
      OwnersAdd(TallyOf(agents[1..], i), Here(agents[0], i));
      SumOfOwners(agents[1..], i);
    }
  }

  lemma {:induction false} SumOfReceivers(agents: seq<Pc>, i: nat)
    ensures ReceiversOf(TallyOf(agents, i)) == Sum(agents, On(i, RecvWeight))
  {
    hide Raise, Here, ReceiversOf, RecvWeight;
    if agents == [] {
      NobodyCounts(i);
    } else {
      ReceiversAdd(TallyOf(agents[1..], i), Here(agents[0], i));
      SumOfReceivers(agents[1..], i);
    }
  }

  lemma {:induction false} SumOfTransits(agents: seq<Pc>, i: nat)
    ensures TransitsOf(TallyOf(agents, i)) == Sum(agents, On(i, Transit))
  {
    hide Raise, Here, TransitsOf, Transit;
    if agents == [] {
      NobodyCounts(i);
    } else {
      TransitsAdd(TallyOf(agents[1..], i), Here(agents[0], i));
      SumOfTransits(agents[1..], i);
    }
  }

  // ---------------------------------------------------------------- the theorems

  /** Nothing breaks into the debugger, no packet is freed twice, no array is overrun. */
  lemma NeverBroken(s: State)
    requires Reachable(s)
    ensures !s.broken
  {
    hide Reachable;
    ReachableInv(s);
  }

  lemma SlotIn(s: State, i: nat)
    requires Reachable(s) && i < |s.slots|
    ensures SlotInv(s.slots[i], TallyOf(s.agents, i), Stacked(s.stack, i))
    ensures SlotLog(s, i)
  {
    hide Reachable, SlotInv;
    ReachableInv(s);
  }

  /** `ioCount` is the number of references held by agents and by outstanding I/O, with the flag or
      without it; it never leaves the range of a LONG. */
  lemma RefCountExact(s: State, i: nat)
    requires Reachable(s) && i < |s.slots|
    ensures var refs := Sum(s.agents, On(i, RefWeight)) + s.slots[i].recvOut + s.slots[i].sendOut;
            && refs < RELEASE
            && s.slots[i].io == if s.slots[i].io < 0 then refs - RELEASE else refs
  {
    hide Reachable, LifeInv, RecvInv, SendInv, QueueInv, BatchInv, OrderInv, Refs, SlotLog, TallyOf, Sum;
    SlotIn(s, i);
    SumOfRefs(s.agents, i);
  }

  /** Every index is on the stack, in the hands of one accepting or releasing agent, or live; and
      an index on the stack belongs to a clean slot whose last session has been released. */
  lemma SlotsPartition(s: State, i: nat)
    requires Reachable(s) && i < |s.slots|
    ensures multiset(s.stack)[i] + Sum(s.agents, On(i, Transit)) + (if s.slots[i].io >= 0 then 1 else 0) == 1
    ensures i in s.stack ==> var x := s.slots[i];
              && x.io < 0 && x.queue == [] && x.size == 0 && x.sending == [] && x.sendingCount == 0
              && x.recvOut == 0 && x.sendOut == 0
              && (x.sid == 0 || PhaseOf(s.log, x.sid) == Closed)
  {
    hide Reachable, SlotInv, Transit, PhaseOf, TallyOf, Sum, Expected, Accepting, Releasing;
    SlotIn(s, i);
    SumOfTransits(s.agents, i);
    StackedSlot(s.slots[i], TallyOf(s.agents, i), Stacked(s.stack, i));
  }

  lemma StackedSlot(x: Slot, t: Tally, n: nat)
    requires SlotInv(x, t, n)
    ensures n + TransitsOf(t) + (if x.io >= 0 then 1 else 0) == 1
    ensures n >= 1 ==> Expected(x, t) == Closed && x.io < 0 && x.recvOut == 0 && x.sendOut == 0
    ensures n >= 1 ==> x.queue == [] && x.size == 0 && x.sending == [] && x.sendingCount == 0
  {
    hide CountInv, RecvInv, SendInv, OrderInv, Strong, Refs;
  }

  /** A live session without references is about to be released. */
  lemma NoStrandedSession(s: State, i: nat) returns (a: nat)
    requires Reachable(s) && i < |s.slots| && s.slots[i].io == 0
    ensures a < |s.agents| && s.agents[a] == RelCas(i)
  {
    hide Reachable, CountInv, RecvInv, SendInv, QueueInv, BatchInv, OrderInv, SlotLog, Spot;
    SlotIn(s, i);
    a := FindAgent(s.agents, i, Casing);
    OnlyRelCas(s.agents[a]);
  }

  lemma OnlyRelCas(pc: Pc)
    ensures Spot(pc) == Casing ==> pc.RelCas?
  {
  }

  lemma OnlyWakers(pc: Pc)
    ensures Spot(pc) == Linked ==> pc.SdLinked?
    ensures Spot(pc) == Wake ==> pc.SpExchange? || pc.SpRecheck?
  {
  }

  /** The send side has one owner: an agent, an outstanding send, or a send that failed and will
      never complete; and it has one exactly when `isSending` is set. */
  lemma OneSendOwner(s: State, i: nat)
    requires Reachable(s) && i < |s.slots|
    ensures Sum(s.agents, On(i, OwnWeight)) + s.slots[i].sendOut + (if s.slots[i].failed then 1 else 0)
            == if s.slots[i].isSending then 1 else 0
  {
    hide Reachable, CountInv, LifeInv, RecvInv, QueueInv, BatchInv, OrderInv, SlotLog, Owners;
    SlotIn(s, i);
    SumOfOwners(s.agents, i);
  }

  /** At most one agent receives on a session, and none while a receive is outstanding; and a live session
      always has one or the other, until its receiving has ended. */
  lemma OneReceiver(s: State, i: nat)
    requires Reachable(s) && i < |s.slots|
    ensures Sum(s.agents, On(i, RecvWeight)) + s.slots[i].recvOut <= 1
    ensures s.slots[i].io >= 0 ==>
              Sum(s.agents, On(i, RecvWeight)) + s.slots[i].recvOut + (if s.slots[i].ended then 1 else 0) == 1
  {
    hide Reachable, SlotInv, SlotLog, ReceiversOf, TallyOf, Stacked, On, Sum;
    SlotIn(s, i);
    SumOfReceivers(s.agents, i);
    ReceiversOfSlot(s.slots[i], TallyOf(s.agents, i), Stacked(s.stack, i));
  }

  lemma ReceiversOfSlot(x: Slot, t: Tally, stacked: nat)
    requires SlotInv(x, t, stacked)
    ensures ReceiversOf(t) + x.recvOut <= 1
    ensures x.io >= 0 ==> ReceiversOf(t) + x.recvOut + (if x.ended then 1 else 0) == 1
  {
    hide CountInv, SendInv, QueueInv, BatchInv, OrderInv;
  }

  /** While packets are queued and nobody is sending, some sender still has to look at the queue. */
  lemma NoLostWakeup(s: State, i: nat) returns (a: nat)
    requires Reachable(s) && i < |s.slots|
    requires s.slots[i].io >= 0 && !s.slots[i].isSending && s.slots[i].queue != []
    ensures a < |s.agents| && s.agents[a] != Idle && s.agents[a].i == i
    ensures s.agents[a].SdLinked? || s.agents[a].SpExchange? || s.agents[a].SpRecheck?
  {
    hide Reachable, CountInv, LifeInv, RecvInv, QueueInv, BatchInv, OrderInv, SlotLog, Spot;
    SlotIn(s, i);
    if TallyOf(s.agents, i).linked >= 1 {
      a := FindAgent(s.agents, i, Linked);
    } else {
      a := FindAgent(s.agents, i, Wake);
    }
    OnlyWakers(s.agents[a]);
  }

  /** Every batch handed to `WSASend` has 1 to 100 packets, the ones linked next after those handed
      over before. */
  lemma BatchesInOrder(s: State, a: nat)
    requires Reachable(s) && a < |s.agents| && s.agents[a].SpSend? && s.agents[a].i < |s.slots|
    ensures var x := s.slots[s.agents[a].i];
            && 1 <= |x.sending| <= MAX_SEND_PACKET && x.sendingCount == |x.sending|
            && x.linked == x.posted + x.sending + x.queue
  {
    hide Reachable, CountInv, RecvInv, QueueInv, SlotLog, Spot, TallyOf;
    var i := s.agents[a].i;
    SlotIn(s, i);
    AgentIsCounted(s.agents, a, i);
    PostingSpot(s.agents[a]);
  }

  lemma PostingSpot(pc: Pc)
    ensures pc.SpSend? ==> Spot(pc) == Posting
  {
  }

  /** Nobody works on the slot. */
  predicate AtRest(s: State, i: nat) {
    forall a :: 0 <= a < |s.agents| ==> s.agents[a] == Idle || s.agents[a].i != i
  }

  lemma {:induction false} RestCountsNobody(agents: seq<Pc>, i: nat)
    requires forall a :: 0 <= a < |agents| ==> agents[a] == Idle || agents[a].i != i
    ensures NoOne(TallyOf(agents, i))
  {
    if agents != [] {
      assert forall a :: 0 <= a < |agents| - 1 ==> agents[1..][a] == agents[a + 1];
      RestCountsNobody(agents[1..], i);
    }
  }

  /** When nobody works on a session and no send is outstanding, everything its senders linked has
      been handed to `WSASend`, unless a send failed. */
  lemma EverythingIsSent(s: State, i: nat)
    requires Reachable(s) && i < |s.slots| && AtRest(s, i)
    requires s.slots[i].io >= 0 && s.slots[i].sendOut == 0 && !s.slots[i].failed
    ensures s.slots[i].queue == [] && s.slots[i].linked == s.slots[i].posted
  {
    hide Reachable, SlotInv, SlotLog, TallyOf;
    SlotIn(s, i);
    RestCountsNobody(s.agents, i);
    RestingSlot(s.slots[i], TallyOf(s.agents, i), Stacked(s.stack, i));
  }

  lemma RestingSlot(x: Slot, t: Tally, n: nat)
    requires SlotInv(x, t, n) && NoOne(t)
    ensures x.io >= 0 && x.sendOut == 0 && !x.failed ==> x.queue == [] && x.linked == x.posted
    ensures x.recvOut == 0 && x.sendOut == 0 ==> n == 1 && x.io == -RELEASE
    ensures x.io < 0 ==> Expected(x, t) == Closed
  {
    hide Refs, Strong, Owners, Filling, Accepting, Releasing;
    NoOneCounts(t);
  }

  /** When nobody works on a slot and no I/O is outstanding, its session has been released and its
      index is back on the stack, once. */
  lemma NothingLeaks(s: State, i: nat)
    requires Reachable(s) && i < |s.slots| && AtRest(s, i)
    requires s.slots[i].recvOut == 0 && s.slots[i].sendOut == 0
    ensures multiset(s.stack)[i] == 1
    ensures s.slots[i].io == -RELEASE && (s.slots[i].sid == 0 || PhaseOf(s.log, s.slots[i].sid) == Closed)
  {
    hide Reachable, SlotInv, TallyOf, PhaseOf, Expected;
    SlotIn(s, i);
    RestCountsNobody(s.agents, i);
    RestingSlot(s.slots[i], TallyOf(s.agents, i), Stacked(s.stack, i));
  }

  lemma ReliersAreStrong(t: Tally, k: Kind)
    requires Relies(k) && At(t, k) >= 1
    ensures Strong(t) >= 1 && Refs(t) >= 1
  {
  }

  /** While an agent relies on a session, it is counted and not released, and nobody is accepting
      into its slot or releasing it. */
  lemma NotReleasedWhileHeld(s: State, a: nat)
    requires Reachable(s) && a < |s.agents| && s.agents[a] != Idle && s.agents[a].i < |s.slots|
    requires Relies(Spot(s.agents[a]))
    ensures var i := s.agents[a].i;
            && s.slots[i].io >= 1 && PhaseOf(s.log, s.slots[i].sid) != Closed
            && Sum(s.agents, On(i, Transit)) == 0 && i !in s.stack
  {
    hide Reachable, SlotInv, Expected, Transit, TransitsOf, PhaseOf, Refs, Strong, Relies, Spot, At;
    var i := s.agents[a].i;
    SlotIn(s, i);
    SumOfTransits(s.agents, i);
    AgentIsCounted(s.agents, a, i);
    ReliersAreStrong(TallyOf(s.agents, i), Spot(s.agents[a]));
    HeldSlot(s.slots[i], TallyOf(s.agents, i), Stacked(s.stack, i));
  }

  lemma HeldSlot(x: Slot, t: Tally, n: nat)
    requires SlotInv(x, t, n) && Strong(t) >= 1 && Refs(t) >= 1
    ensures x.io >= 1 && Expected(x, t) != Closed && TransitsOf(t) == 0 && n == 0
  {
    hide RecvInv, SendInv, QueueInv, BatchInv, OrderInv, Strong, Refs, Accepting, Releasing;
    StackedSlot(x, t, n);
  }

  /** Whoever has acquired a session works on the session of that ID, which is not released. */
  lemma AcquiredIsRight(s: State, a: nat)
    requires Reachable(s) && a < |s.agents| && (s.agents[a].AqOk? || s.agents[a].SdShared?)
    ensures var i, id := s.agents[a].i, s.agents[a].id;
            && i < |s.slots| && s.slots[i].sid == id && s.slots[i].io >= 1
            && PhaseOf(s.log, id) != Closed
  {
    hide Reachable, SlotsInv, PacketInv, LogInv, PhaseOf, SlotLog;
    ReachableInv(s);
    assert KnowsRight(s, s.agents[a]);
    NotReleasedWhileHeld(s, a);
  }

  /** The ID of a released session never acquires the slot again, whatever session is in it. */
  lemma StaleIdFails(s: State, a: nat, c: Choice)
    requires Reachable(s) && a < |s.agents| && s.agents[a].AqCheck? && Enabled(s, Continue(a, c))
    requires PhaseOf(s.log, s.agents[a].id) == Closed
    ensures Apply(s, Continue(a, c)).agents[a] == AqFail(s.agents[a].i, s.agents[a].why)
  {
    hide Reachable, PhaseOf;
    if !s.agents[a].flag {
      NotReleasedWhileHeld(s, a);
    }
  }

  /** A packet is out of the pool exactly while references to it exist, and its count is their number. */
  lemma PacketsAreConserved(s: State, p: nat)
    requires Reachable(s)
    ensures p in s.inUse <==> Tokens(s, p) >= 1
    ensures p in s.inUse ==> RefOf(s, p) == Tokens(s, p)
  {
    hide Reachable, SlotsInv, IdInv, LogInv, Tokens;
    ReachableInv(s);
    assert Exact(s, p);
  }

  /** Every session is accepted once, then receives, then is released once. */
  lemma CallbacksAreOrderly(s: State)
    requires Reachable(s)
    ensures Orderly(s.log)
    ensures forall id: nat :: PhaseOf(s.log, id) == Open ==>
              id % INDICES < |s.slots| && s.slots[id % INDICES].sid == id
  {
    hide Reachable, SlotsInv, IdInv, PacketInv, PhaseOf;
    ReachableInv(s);
    forall id: nat ensures PhaseOf(s.log, id) != Broken &&
                           (PhaseOf(s.log, id) == Open ==>
                             id % INDICES < |s.slots| && s.slots[id % INDICES].sid == id) {
      assert IdLog(s, id);
    }
  }

  /** While fewer than 2^48 sessions have been accepted every session ID fits into 64 bits. */
  lemma IdsFit(s: State, i: nat)
    requires Reachable(s) && i < |s.slots| && s.gen < 0x1_0000_0000_0000
    ensures s.slots[i].sid < 0x1_0000_0000_0000_0000
  {
    hide Reachable, SlotsInv, PacketInv, IdInv, LogInv;
    ReachableInv(s);
    SlotIdFits(s, i);
  }

  /** A step that puts a new session into a slot gives it an ID that no slot has and no callback has
      seen, and only after the last session of the slot was released. */
  lemma FreshIds(s: State, act: Action, i: nat)
    requires Reachable(s) && Enabled(s, act) && i < |s.slots|
    ensures NewSession(s, Apply(s, act), i)
    ensures Apply(s, act).gen < 0x1_0000_0000_0000 ==> Apply(s, act).slots[i].sid < 0x1_0000_0000_0000_0000
  {
    hide Reachable, SlotsInv, IdInv, PacketInv, LogInv, Apply, Enabled;
    ReachableInv(s);
    StepKeepsLog(s, act);
    StepKeepsInv(s, act);
    assert NewSession(s, Apply(s, act), i);
    if Apply(s, act).gen < 0x1_0000_0000_0000 {
      SlotIdFits(Apply(s, act), i);
    }
  }

  lemma SlotIdFits(s: State, i: nat)
    requires LogInv(s) && i < |s.slots| && s.gen < 0x1_0000_0000_0000
    ensures s.slots[i].sid < 0x1_0000_0000_0000_0000
  {
    hide PhaseOf, TallyOf, Expected, IdLog;
    assert SlotLog(s, i);
  }
}
