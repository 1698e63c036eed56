/** The whole server: all slots, the index stack, the session ID generator, packet reference counts,
    the references held by application code, and the job queue that the callbacks fill. */
module ServerSystem {
  import opened Tally
  import opened Tallying
  import opened Callbacks
  import opened Server

  /** `log` lists every job ever queued; the contents thread has taken the first `taken`. */
  datatype State = State(
    slots: seq<Slot>,
    agents: seq<Pc>,
    stack: seq<nat>,
    gen: nat,
    refs: map<nat, int>,          // m_refCount of each packet
    inUse: set<nat>,              // packets out of the packet pool
    locals: multiset<nat>,        // references that application code holds
    log: seq<Callback>,
    taken: nat,
    broken: bool)                 // some agent broke into the debugger or corrupted memory

  datatype Action =
    | Start(a: nat, i: nat, b: Begin)
    | Continue(a: nat, c: Choice)
    // application code, the contents thread among it
    | AppAlloc(p: nat)
    | AppFree(p: nat)
    | AppTakesJob

  // ---------------------------------------------------------------- packet references

  /** What a step does to packet references.  `Hand` gives a reference back to the application. */
  datatype PacketOp = Keep | Allocate(p: nat) | Share(p: nat) | Drop(p: nat) | Hand(p: nat)

  function OpOf(pc: Pc, x: Slot, c: Choice): PacketOp {
    match pc
    case RvLoop(_) => if c.Frame? then Allocate(c.p) else Keep
    case RvPacket(_, p) => if c.Succeeds? then Share(p) else Drop(p)
    case RvFree(_, p) => Drop(p)
    case AqFail(_, why) => if why.ToSend? then Hand(why.packet) else Keep
    case AqOk(_, _, why) => if why.ToSend? then Share(why.packet) else Keep
    case SdLinked(_, p) => Hand(p)
    case ScFree(_) => if x.freed < x.sendingCount && x.freed < |x.sending| then Drop(x.sending[x.freed]) else Keep
    case RlFree(_) => if x.freed < x.sendingCount && x.freed < |x.sending| then Drop(x.sending[x.freed]) else Keep
    case RlPacket(_, p) => Drop(p)
    case _ => Keep
  }

  function RefOf(s: State, p: nat): int {
    if p in s.refs then s.refs[p] else 0
  }

  /** `Packet::Alloc`, `AddRef` and `Free`; a count below 0 breaks into the debugger. */
  function Count(s: State, op: PacketOp): State {
    match op
    case Keep => s
    case Allocate(p) => s.(refs := s.refs[p := 1], inUse := s.inUse + {p})
    case Share(p) => s.(refs := s.refs[p := RefOf(s, p) + 1])
    case Drop(p) =>
      var left := RefOf(s, p) - 1;
      s.(refs := s.refs[p := left],
         inUse := if left == 0 then s.inUse - {p} else s.inUse,
         broken := s.broken || left < 0 || p !in s.inUse)
    case Hand(p) => s.(locals := s.locals + multiset{p})
  }

  // ---------------------------------------------------------------- steps

  function EmitOf(pc: Pc, x: Slot): seq<Callback> {
    match pc
    case AcLive(_, id) => [Accepted(id)]
    case RvShared(_, p) => [Received(x.sid, p)]
    case RlTell(_) => [Released(x.sid)]
    case _ => []
  }

  function IdsMade(pc: Pc, c: Choice): nat {
    if pc.AcPopped? && c.Succeeds? then 1 else 0
  }

  predicate Enabled(s: State, act: Action) {
    match act
    case Start(a, i, b) =>
      && a < |s.agents| && s.agents[a] == Idle && i < |s.slots|
      && (match b
          case Accept => s.stack != [] && s.stack[0] == i
          case Acquire(id, why) => id % INDICES == i && (why.ToSend? ==> why.packet in s.locals)
          case RecvDone(_) => s.slots[i].recvOut > 0
          case SendDone(_) => s.slots[i].sendOut > 0)
    case Continue(a, c) =>
      && a < |s.agents| && s.agents[a] != Idle && s.agents[a].i < |s.slots|
      && (c.Frame? ==> c.p !in s.inUse)
    case AppAlloc(p) => p !in s.inUse
    case AppFree(p) => p in s.locals
    case AppTakesJob => s.taken < |s.log|
  }

  function Apply(s: State, act: Action): State
    requires Enabled(s, act)
  {
    match act
    case Start(a, i, b) => Started(s, a, i, b)
    case Continue(a, c) => Continued(s, a, c)
    case AppAlloc(p) => Count(s, Allocate(p)).(locals := s.locals + multiset{p})
    case AppFree(p) => Count(s, Drop(p)).(locals := s.locals - multiset{p})
    case AppTakesJob =>
      var job := s.log[s.taken];
      s.(taken := s.taken + 1, locals := if job.Received? then s.locals + multiset{job.packet} else s.locals)
  }

  function Started(s: State, a: nat, i: nat, b: Begin): State
    requires Enabled(s, Start(a, i, b))
  {
    var o := BeginStep(b, i, s.slots[i]);
    s.(slots := s.slots[i := o.slot],
       agents := s.agents[a := o.pc],
       stack := if b.Accept? then s.stack[1..] else s.stack,
       locals := if b.Acquire? && b.why.ToSend? then s.locals - multiset{b.why.packet} else s.locals)
  }

  function Continued(s: State, a: nat, c: Choice): State
    requires Enabled(s, Continue(a, c))
  {
    var pc := s.agents[a];
    var i := pc.i;
    var o := SlotStep(pc, s.slots[i], c, s.gen);
    Count(s, OpOf(pc, s.slots[i], c)).(
      slots := s.slots[i := o.slot],
      agents := s.agents[a := o.pc],
      stack := if Pushes(pc, c) == 1 then [i] + s.stack else s.stack,
      gen := s.gen + IdsMade(pc, c),
      log := s.log + EmitOf(pc, s.slots[i]),
      broken := Count(s, OpOf(pc, s.slots[i], c)).broken || !o.ok)
  }

  /** `Start`: every index is on the stack, every slot has its release flag set. */
  ghost predicate Init(s: State) {
    && |s.slots| <= INDICES
    && (forall i :: 0 <= i < |s.slots| ==> Unused(s.slots[i]))
    && s.stack == seq(|s.slots|, i => i)
    && |s.agents| <= 0x1000_0000 && (forall a :: 0 <= a < |s.agents| ==> s.agents[a] == Idle)
    && s.gen == 0 && s.refs == map[] && s.inUse == {} && s.locals == multiset{}
    && s.log == [] && s.taken == 0 && !s.broken
  }

  // ---------------------------------------------------------------- counting agents

  function Here(pc: Pc, i: nat): Kind {
    if pc != Idle && pc.i == i then Spot(pc) else Nowhere
  }

  function TallyOf(agents: seq<Pc>, i: nat): Tally {
    if agents == [] then NOBODY else Raise(TallyOf(agents[1..], i), Here(agents[0], i))
  }

  /** All agents but `a`, whatever `a` does next. */
  lemma {:induction false} Apart(agents: seq<Pc>, a: nat, i: nat, next: Pc) returns (r: Tally)
    requires a < |agents|
    ensures TallyOf(agents, i) == Raise(r, Here(agents[a], i))
    ensures TallyOf(agents[a := next], i) == Raise(r, Here(next, i))
  {
    hide Raise, Here;
    if a == 0 {
      r := TallyOf(agents[1..], i);
      assert agents[a := next][1..] == agents[1..];
    } else {
      assert agents[a := next][1..] == agents[1..][a - 1 := next];
      var q := Apart(agents[1..], a - 1, i, next);
      r := Raise(q, Here(agents[0], i));
      RaiseSwap(q, Here(agents[a], i), Here(agents[0], i));
      RaiseSwap(q, Here(next, i), Here(agents[0], i));
    }
  }

  /** Two different agents are counted side by side. */
  lemma Pair(agents: seq<Pc>, a: nat, b: nat, i: nat) returns (r: Tally)
    requires a < |agents| && b < |agents| && a != b
    ensures TallyOf(agents, i) == Raise(Raise(r, Here(agents[b], i)), Here(agents[a], i))
  {
    hide Raise;
    var q := Apart(agents, a, i, Idle);
    r := Apart(agents[a := Idle], b, i, Idle);
    NowhereRaisesNothing(q);
  }

  lemma NowhereRaisesNothing(t: Tally)
    ensures Raise(t, Nowhere) == t
  {
  }

  lemma {:induction false} RefsBounded(agents: seq<Pc>, i: nat)
    ensures Refs(TallyOf(agents, i)) <= 2 * |agents|
  {
    if agents != [] {
      RefsBounded(agents[1..], i);
      OneHoldsTwo(TallyOf(agents[1..], i), Here(agents[0], i));
    }
  }

  /** References in `ioCount` that an agent holds. */
  function RefWeight(k: Kind): nat {
    match k
    case Nowhere | Popped | Initd | Casing | Freeing | Draining | DrainTake | DrainEnd | Telling | Pushing => 0
    case Recv | RecvBad | Posting | Bad => 2
    case _ => 1
  }

  /** Whether an agent owns `sendingPackets` of a live session. */
  function OwnWeight(k: Kind): nat {
    match k
    case Own | Batch | Take | Restore | Full | Ready | Posting | Clearing => 1
    case _ => 0
  }

  /** Points at which an agent relies on the session staying alive. */
  predicate Relies(k: Kind) {
    k.Live? || k.Told? || k.Recv? || k.RecvBad? || k.Rv? || k.Held? || k.Linked? || k.Wake?
    || OwnWeight(k) == 1 || k.Bad?
  }

  lemma OwnersAdd(t: Tally, k: Kind)
    ensures Owners(Raise(t, k)) == Owners(t) + OwnWeight(k)
  {
  }

  lemma AcceptorRefs(t: Tally, k: Kind)
    requires k.Nowhere? || k.Popped? || k.Initd? || k.Inc? || k.Live? || k.Told? || k.Recv? || k.RecvBad? || k.Rv?
    ensures Refs(Raise(t, k)) == Refs(t) + RefWeight(k)
  {
  }

  lemma HolderRefs(t: Tally, k: Kind)
    requires k.Weak? || k.Held? || k.Linked? || k.Wake? || k.Own? || k.Batch? || k.Take? || k.Restore?
    ensures Refs(Raise(t, k)) == Refs(t) + RefWeight(k)
  {
  }

  lemma SenderRefs(t: Tally, k: Kind)
    requires k.Full? || k.Ready? || k.Posting? || k.Bad? || k.Clearing?
    ensures Refs(Raise(t, k)) == Refs(t) + RefWeight(k)
  {
  }

  lemma ReleaserRefs(t: Tally, k: Kind)
    requires k.Casing? || k.Freeing? || k.Draining? || k.DrainTake? || k.DrainEnd? || k.Telling? || k.Pushing?
    ensures Refs(Raise(t, k)) == Refs(t) + RefWeight(k)
  {
  }

  lemma RefsAdd(t: Tally, k: Kind)
    ensures Refs(Raise(t, k)) == Refs(t) + RefWeight(k)
  {
    hide Refs, Raise, RefWeight;
    match k
    case Nowhere | Popped | Initd | Inc | Live | Told | Recv | RecvBad | Rv => AcceptorRefs(t, k);
    case Weak | Held | Linked | Wake | Own | Batch | Take | Restore => HolderRefs(t, k);
    case Full | Ready | Posting | Bad | Clearing => SenderRefs(t, k);
    case _ => ReleaserRefs(t, k);
  }

  lemma OneHoldsTwo(t: Tally, k: Kind)
    ensures Refs(Raise(t, k)) <= Refs(t) + 2
  {
    hide Refs, Raise;
    RefsAdd(t, k);
  }

  lemma {:induction false} IdleCountsNothing(agents: seq<Pc>, i: nat)
    requires forall a :: 0 <= a < |agents| ==> agents[a] == Idle
    ensures NoOne(TallyOf(agents, i))
  {
    if agents != [] {
      assert forall a :: 0 <= a < |agents| - 1 ==> agents[1..][a] == agents[a + 1];
      IdleCountsNothing(agents[1..], i);
    }
  }

  function Stacked(stack: seq<nat>, i: nat): nat {
    multiset(stack)[i]
  }

  /** A step that moves one agent on one slot keeps every slot in order if it keeps that one. */
  ghost predicate SlotsInv(s: State) {
    && |s.agents| <= 0x1000_0000
    && |s.slots| <= INDICES
    && (forall i :: 0 <= i < |s.slots| ==> SlotInv(s.slots[i], TallyOf(s.agents, i), Stacked(s.stack, i)))
  }

  lemma InitSlotsInv(s: State)
    requires Init(s)
    ensures SlotsInv(s)
  {
    hide SlotInv, TallyOf;
    forall i | 0 <= i < |s.slots| ensures SlotInv(s.slots[i], TallyOf(s.agents, i), Stacked(s.stack, i)) {
      IdleCountsNothing(s.agents, i);
      OnceOnStack(|s.slots|, i);
      NewSlotInOrder(s.slots[i], TallyOf(s.agents, i));
    }
  }

  /** The `Session` constructor. */
  predicate Unused(x: Slot) {
    && x.io == -RELEASE && x.sid == 0 && !x.isSending && x.queue == [] && x.size == 0
    && x.sending == [] && x.sendingCount == 0 && x.freed == 0 && x.recvOut == 0 && x.sendOut == 0
    && !x.failed && x.linked == [] && x.posted == []
  }

  lemma NewSlotInOrder(x: Slot, t: Tally)
    requires Unused(x) && NoOne(t)
    ensures SlotInv(x, t, 1)
  {
    hide Refs, Strong, Owners, Filling, Accepting, Releasing;
    NoOneCounts(t);
  }

  lemma NoOneCounts(t: Tally)
    requires NoOne(t)
    ensures Refs(t) == Strong(t) == Owners(t) == Filling(t) == Accepting(t) == Releasing(t) == 0
  {
  }

  lemma {:induction false} OnceOnStack(n: nat, i: nat)
    requires i < n
    ensures multiset(seq(n, k => k))[i] == 1
  {
    var all := seq(n, k => k);
    assert all == all[..i] + [i] + all[i + 1..];
    assert i !in all[..i] && i !in all[i + 1..];
  }

  lemma OtherSlotsKeep(s: State, s': State, a: nat, i: nat, pc': Pc)
    requires SlotsInv(s) && a < |s.agents| && i < |s.slots|
    requires s.agents[a] == Idle || s.agents[a].i == i
    requires pc' == Idle || pc'.i == i
    requires s'.agents == s.agents[a := pc'] && |s'.slots| == |s.slots|
    requires forall j :: 0 <= j < |s.slots| && j != i ==>
               s'.slots[j] == s.slots[j] && Stacked(s'.stack, j) == Stacked(s.stack, j)
    requires SlotInv(s'.slots[i], TallyOf(s'.agents, i), Stacked(s'.stack, i))
    ensures SlotsInv(s')
  {
    hide SlotInv, TallyOf, Raise, Stacked, Spot;
    forall j | 0 <= j < |s'.slots| ensures SlotInv(s'.slots[j], TallyOf(s'.agents, j), Stacked(s'.stack, j)) {
      if j != i {
        var r := Apart(s.agents, a, j, pc');
      }
    }
  }
}
