/** Session slots, the send protocol and packet references of CNetServer.cpp as a state machine.

    Agents are the activities that work on slots: the acceptor, workers handling a completion,
    `SendPacket` and `Disconnect` callers, releasers.  An activity that calls another one while it
    is paused (a `SendPacket` inside a callback) is two agents, so any nesting is covered.  Each
    Interlocked call, each test of a shared field and each queue operation is one atomic step; the
    send queue offers the atomic operations that QueueRefinement proves for LockFreeQueue, and the
    index stack those that TaggedStack proves. */
module Server {
  import opened Tally
  import opened Callbacks

  const RELEASE: int := 0x8000_0000       // `RELEASE_FLAG` is the sign bit of the LONG `ioCount`
  const INDICES: nat := 0x1_0000          // `INDEX_BITS` = 16
  const MAX_SEND_PACKET: nat := 100

  /** A packet is named by its number. */
  datatype Purpose = ToDisconnect | ToSend(packet: nat)

  /** A session slot.  The last fields are bookkeeping that no step reads: whether a send of this
      incarnation failed, whether its receiving has ended, whether `Disconnect` has closed its socket, and
      its packets in the order of linking and of `WSASend`. */
  datatype Slot = Slot(
    io: int,                // ioCount
    sid: nat,               // sessionID
    isSending: bool,
    queue: seq<nat>,        // sendQ: the packets linked
    size: int,              // sendQ: its `_size` counter
    sending: seq<nat>,      // sendingPackets, the entries filled
    sendingCount: nat,
    freed: nat,             // the index of the loop that frees `sendingPackets`
    recvOut: nat,           // receives the kernel has not completed
    sendOut: nat,           // sends the kernel has not completed
    failed: bool,
    ended: bool,
    shut: bool,
    linked: seq<nat>,
    posted: seq<nat>)

  datatype Pc =
    | Idle
    // AcceptThreadMain
    | AcPopped(i: nat)
    | AcReady(i: nat, id: nat)
    | AcCounted(i: nat, id: nat)
    | AcLive(i: nat, id: nat)
    | AcTold(i: nat)
    | AcRecv(i: nat)
    | AcRecvBad(i: nat)
    // RecvProc
    | RvLoop(i: nat)
    | RvPacket(i: nat, p: nat)
    | RvShared(i: nat, p: nat)
    | RvFree(i: nat, p: nat)
    // AcquireSession and its users
    | AqCheck(i: nat, id: nat, flag: bool, why: Purpose)
    | AqFail(i: nat, why: Purpose)
    | AqOk(i: nat, id: nat, why: Purpose)
    | SdShared(i: nat, id: nat, p: nat)
    | SdLinked(i: nat, p: nat)
    // SendPost
    | SpExchange(i: nat)
    | SpSize(i: nat)
    | SpClear(i: nat)
    | SpRecheck(i: nat)
    | SpBatch(i: nat)
    | SpTake(i: nat)
    | SpRestore(i: nat)
    | SpStore(i: nat)
    | SpCount(i: nat)
    | SpSend(i: nat)
    | SpBad(i: nat)
    // SendProc
    | ScFree(i: nat)
    | ScClear(i: nat)
    // ReturnSession and ReleaseSession
    | Return(i: nat)
    | RelCas(i: nat)
    | RlFree(i: nat)
    | RlDrain(i: nat)
    | RlTake(i: nat)
    | RlPacket(i: nat, p: nat)
    | RlRestore(i: nat)
    | RlTell(i: nat)
    | RlPush(i: nat)

  /** How a step that is not determined by the state comes out. */
  datatype Choice =
    | Succeeds               // the callback accepts, WSARecv or WSASend is pending or done
    | Fails                  // the callback refuses, the Winsock call fails, a checksum is wrong
    | Frame(p: nat)          // RecvProc: a complete frame, its packet allocated
    | BadCode                // RecvProc: a frame with a wrong packet code

  // ---------------------------------------------------------------- one slot

  datatype Outcome = Outcome(slot: Slot, pc: Pc, ok: bool)

  /** `InterlockedAnd(&ioCount, ~RELEASE_FLAG)` on a 32-bit two's complement number. */
  function ClearFlag(io: int): int {
    if io < 0 then io + RELEASE else io
  }

  /** `Session::Init`. */
  function InitSlot(x: Slot, id: nat): Slot {
    x.(sid := id, isSending := false, sending := [], sendingCount := 0, freed := 0,
       failed := false, ended := false, shut := false, linked := [], posted := [])
  }

  /** `ReturnSession`, and the same two lines at the end of `SendProc`. */
  function ReturnStep(x: Slot, i: nat): Outcome {
    Outcome(x.(io := x.io - 1), if x.io - 1 == 0 then RelCas(i) else Idle, true)
  }

  /** `InterlockedDecrement` of an `ioCount` that the agent also holds otherwise; reaching 0 there
      would release the session under the agent's feet. */
  function NestedReturn(x: Slot, i: nat): Outcome {
    Outcome(x.(io := x.io - 1), Return(i), x.io - 1 != 0)
  }

  // Each of the following functions says what a step at `pc` with outcome `c` does to its slot and
  // where it goes next.  `ok` is false where the source would break into the debugger or corrupt
  // memory.

  /** The acceptor.  `gen` is the session ID generator. */
  function AcceptStep(pc: Pc, x: Slot, c: Choice, gen: nat): Outcome {
    match pc
    case AcPopped(i) =>
      if c.Succeeds? then
        var id := (gen + 1) * INDICES + i;
        Outcome(InitSlot(x, id), AcReady(i, id), true)
      else Outcome(x, Idle, true)
    case AcReady(i, id) => Outcome(x.(io := x.io + 1), AcCounted(i, id), true)
    case AcCounted(i, id) => Outcome(x.(io := ClearFlag(x.io)), AcLive(i, id), true)
    case AcLive(i, id) => Outcome(x, AcTold(i), true)
    case AcTold(i) => Outcome(x.(io := x.io + 1), AcRecv(i), true)
    case AcRecv(i) =>
      if c.Succeeds? then Outcome(x.(recvOut := x.recvOut + 1), Return(i), true)
      else Outcome(x.(ended := true), AcRecvBad(i), true)
    case AcRecvBad(i) => NestedReturn(x, i)
    case _ => Outcome(x, pc, true)
  }

  /** `RecvProc`. */
  function RecvStep(pc: Pc, x: Slot, c: Choice): Outcome {
    match pc
    case RvLoop(i) =>
      (match c
       case Frame(p) => Outcome(x, RvPacket(i, p), true)
       case Succeeds => Outcome(x.(recvOut := x.recvOut + 1), Idle, true)
       case _ => Outcome(x.(ended := true), Return(i), true))
    case RvPacket(i, p) =>
      if c.Succeeds? then Outcome(x, RvShared(i, p), true) else Outcome(x.(ended := true), Return(i), true)
    case RvShared(i, p) => Outcome(x, RvFree(i, p), true)
    case RvFree(i, p) => Outcome(x, RvLoop(i), true)
    case _ => Outcome(x, pc, true)
  }

  /** `AcquireSession`, `Disconnect`, `SendPacket` up to `SendPost`, and the final return. */
  function AcquireStep(pc: Pc, x: Slot): Outcome {
    match pc
    case AqCheck(i, id, flag, why) =>
      Outcome(x, if flag || x.sid != id then AqFail(i, why) else AqOk(i, id, why), true)
    case AqFail(i, why) => ReturnStep(x, i)
    case AqOk(i, id, why) =>
      if why.ToSend? then Outcome(x, SdShared(i, id, why.packet), true)
      else Outcome(x.(shut := true), Return(i), true)
    case SdShared(i, id, p) =>
      Outcome(x.(queue := x.queue + [p], linked := x.linked + [p]), SdLinked(i, p), true)
    case SdLinked(i, p) => Outcome(x.(size := x.size + 1), SpExchange(i), true)
    case Return(i) => ReturnStep(x, i)
    case _ => Outcome(x, pc, true)
  }

  /** The loop of `SendPost` that takes the send side. */
  function PostStep(pc: Pc, x: Slot): Outcome {
    match pc
    case SpExchange(i) =>
      if x.isSending then Outcome(x, Return(i), true)
      else Outcome(x.(isSending := true), SpSize(i), true)
    case SpSize(i) =>
      if x.size > 0 then Outcome(x.(sending := [], freed := 0), SpBatch(i), true)
      else Outcome(x, SpClear(i), true)
    case SpClear(i) => Outcome(x.(isSending := false), SpRecheck(i), true)
    case SpRecheck(i) => Outcome(x, if x.size == 0 then Return(i) else SpExchange(i), true)
    case _ => Outcome(x, pc, true)
  }

  /** The rest of `SendPost`: fill a batch and post it. */
  function BatchStep(pc: Pc, x: Slot, c: Choice): Outcome {
    match pc
    case SpBatch(i) =>
      if |x.sending| < MAX_SEND_PACKET then
        Outcome(x.(size := x.size - 1), if x.size - 1 >= 0 then SpTake(i) else SpRestore(i), true)
      else Outcome(x, SpStore(i), true)
    case SpTake(i) =>
      if x.queue == [] then Outcome(x, pc, true)
      else Outcome(x.(queue := x.queue[1..], sending := x.sending + [x.queue[0]]), SpBatch(i), true)
    case SpRestore(i) => Outcome(x.(size := x.size + 1), SpStore(i), true)
    case SpStore(i) => Outcome(x.(sendingCount := |x.sending|), SpCount(i), true)
    case SpCount(i) => Outcome(x.(io := x.io + 1), SpSend(i), true)
    case SpSend(i) =>
      if c.Succeeds? then Outcome(x.(sendOut := x.sendOut + 1, posted := x.posted + x.sending), Return(i), true)
      else Outcome(x.(failed := true, posted := x.posted + x.sending), SpBad(i), true)
    case SpBad(i) => NestedReturn(x, i)
    case _ => Outcome(x, pc, true)
  }

  /** `SendProc` before its `SendPost`. */
  function DoneStep(pc: Pc, x: Slot): Outcome {
    match pc
    case ScFree(i) =>
      if x.freed < x.sendingCount then Outcome(x.(freed := x.freed + 1), pc, x.freed < |x.sending|)
      else Outcome(x.(sendingCount := 0, sending := [], freed := 0), ScClear(i), true)
    case ScClear(i) => Outcome(x.(isSending := false), SpExchange(i), true)
    case _ => Outcome(x, pc, true)
  }

  /** `ReleaseSession`. */
  function ReleaseStep(pc: Pc, x: Slot): Outcome {
    match pc
    case RelCas(i) =>
      if x.io == 0 then Outcome(x.(io := -RELEASE), RlFree(i), true) else Outcome(x, Idle, true)
    case RlFree(i) =>
      if x.freed < x.sendingCount then Outcome(x.(freed := x.freed + 1), pc, x.freed < |x.sending|)
      else Outcome(x.(sendingCount := 0, sending := [], freed := 0), RlDrain(i), true)
    case RlDrain(i) =>
      Outcome(x.(size := x.size - 1), if x.size - 1 >= 0 then RlTake(i) else RlRestore(i), true)
    case RlTake(i) =>
      if x.queue == [] then Outcome(x, pc, true)
      else Outcome(x.(queue := x.queue[1..]), RlPacket(i, x.queue[0]), true)
    case RlPacket(i, p) => Outcome(x, RlDrain(i), true)
    case RlRestore(i) => Outcome(x.(size := x.size + 1), RlTell(i), true)
    case RlTell(i) => Outcome(x, RlPush(i), true)
    case RlPush(i) => Outcome(x, Idle, true)
    case _ => Outcome(x, pc, true)
  }

  function SlotStep(pc: Pc, x: Slot, c: Choice, gen: nat): Outcome {
    if InAccept(pc) then AcceptStep(pc, x, c, gen)
    else if InRecv(pc) then RecvStep(pc, x, c)
    else if InAcquire(pc) then AcquireStep(pc, x)
    else if InPost(pc) then PostStep(pc, x)
    else if InBatch(pc) then BatchStep(pc, x, c)
    else if InDone(pc) then DoneStep(pc, x)
    else ReleaseStep(pc, x)
  }

  predicate InAccept(pc: Pc) {
    pc.AcPopped? || pc.AcReady? || pc.AcCounted? || pc.AcLive? || pc.AcTold? ||
    pc.AcRecv? || pc.AcRecvBad?
  }

  predicate InRecv(pc: Pc) {
    pc.RvLoop? || pc.RvPacket? || pc.RvShared? || pc.RvFree?
  }

  predicate InAcquire(pc: Pc) {
    pc.AqCheck? || pc.AqFail? || pc.AqOk? || pc.SdShared? || pc.SdLinked? || pc.Return?
  }

  predicate InPost(pc: Pc) {
    pc.SpExchange? || pc.SpSize? || pc.SpClear? || pc.SpRecheck?
  }

  predicate InBatch(pc: Pc) {
    pc.SpBatch? || pc.SpTake? || pc.SpRestore? || pc.SpStore? || pc.SpCount? ||
    pc.SpSend? || pc.SpBad?
  }

  predicate InDone(pc: Pc) {
    pc.ScFree? || pc.ScClear?
  }

  predicate InRelease(pc: Pc) {
    pc.RelCas? || pc.RlFree? || pc.RlDrain? || pc.RlTake? || pc.RlPacket? ||
    pc.RlRestore? || pc.RlTell? || pc.RlPush?
  }

  /** How an idle agent starts to work on a slot. */
  datatype Begin =
    | Accept
    | Acquire(id: nat, why: Purpose)
    | RecvDone(ok: bool)
    | SendDone(ok: bool)

  function BeginStep(b: Begin, i: nat, x: Slot): Outcome {
    match b
    case Accept => Outcome(x, AcPopped(i), true)
    case Acquire(id, why) => Outcome(x.(io := x.io + 1), AqCheck(i, id, x.io + 1 < 0, why), true)
    case RecvDone(ok) =>
      Outcome(x.(recvOut := if x.recvOut > 0 then x.recvOut - 1 else 0, ended := if ok then x.ended else true),
              if ok then RvLoop(i) else Return(i), true)
    case SendDone(ok) =>
      Outcome(x.(sendOut := if x.sendOut > 0 then x.sendOut - 1 else 0, failed := x.failed || !ok),
              if ok then ScFree(i) else Return(i), true)
  }

  // ---------------------------------------------------------------- where the agents are

  function Spot(pc: Pc): Kind {
    match pc
    case Idle => Nowhere
    case AcPopped(_) => Popped
    case AcReady(_, _) => Initd
    case AcCounted(_, _) => Inc
    case AcLive(_, _) => Live
    case AcTold(_) => Told
    case AcRecv(_) => Recv
    case AcRecvBad(_) => RecvBad
    case RvLoop(_) => Rv
    case RvPacket(_, _) => Rv
    case RvShared(_, _) => Rv
    case RvFree(_, _) => Rv
    case AqCheck(_, _, flag, _) => if flag then Weak else Held
    case AqFail(_, _) => Weak
    case AqOk(_, _, _) => Held
    case SdShared(_, _, _) => Held
    case SdLinked(_, _) => Linked
    case SpExchange(_) => Wake
    case SpSize(_) => Own
    case SpClear(_) => Own
    case SpRecheck(_) => Wake
    case SpBatch(_) => Batch
    case SpTake(_) => Take
    case SpRestore(_) => Restore
    case SpStore(_) => Full
    case SpCount(_) => Ready
    case SpSend(_) => Posting
    case SpBad(_) => Bad
    case ScFree(_) => Clearing
    case ScClear(_) => Own
    case Return(_) => Held
    case RelCas(_) => Casing
    case RlFree(_) => Freeing
    case RlDrain(_) => Draining
    case RlTake(_) => DrainTake
    case RlPacket(_, _) => Draining
    case RlRestore(_) => DrainEnd
    case RlTell(_) => Telling
    case RlPush(_) => Pushing
  }

  /** The references to the slot that the counted agents hold in `ioCount`. */
  function Refs(t: Tally): nat {
    t.inc + t.weak + Strong(t) + t.recv + t.recvBad + t.posting + t.bad
  }

  /** The agents whose reference keeps the session alive (some hold a second one). */
  function Strong(t: Tally): nat {
    t.live + t.told + t.recv + t.recvBad + t.rv + t.held + t.linked + t.wake + Owners(t) + t.bad
  }

  /** The agents that own `sendingPackets`. */
  function Owners(t: Tally): nat {
    t.own + Filling(t) + t.ready + t.posting + t.clearing
  }

  function Filling(t: Tally): nat {
    t.batch + t.take + t.restore + t.full
  }

  function Accepting(t: Tally): nat {
    t.popped + t.initd + t.inc
  }

  function Releasing(t: Tally): nat {
    t.freeing + t.draining + t.drainTake + t.drainEnd + t.telling + t.pushing
  }

  // ---------------------------------------------------------------- the invariant of one slot

  /** `ioCount` is the number of references, shifted by the flag. */
  predicate CountInv(x: Slot, t: Tally) {
    var refs := Refs(t) + x.recvOut + x.sendOut;
    && refs < RELEASE
    && (x.io == refs || x.io == refs - RELEASE)
  }

  /** A slot is stacked, being accepted, live or being released, exactly one of these; only a live
      slot has strong references, and a live slot without any has a releaser on its way. */
  predicate LifeInv(x: Slot, t: Tally, stacked: nat) {
    && stacked + Accepting(t) + Releasing(t) + (if x.io >= 0 then 1 else 0) == 1
    && (x.io < 0 ==> Strong(t) + x.recvOut + x.sendOut == 0)
    && (x.io == 0 ==> t.casing >= 1)
    && t.live + t.told + t.recv + t.rv + x.recvOut <= 1
  }

  /** A live session always has somebody who receives, or a receive outstanding, until its receiving has
      ended. */
  predicate RecvInv(x: Slot, t: Tally) {
    && (x.io >= 0 ==> t.live + t.told + t.recv + t.rv + x.recvOut + (if x.ended then 1 else 0) == 1)
    && (t.initd + t.inc >= 1 ==> !x.ended)
  }

  /** `isSending` is set exactly when one agent, one outstanding send or a failed send owns the send
      side; counted packets are never forgotten while it is clear. */
  predicate SendInv(x: Slot, t: Tally) {
    && Owners(t) + x.sendOut + (if x.failed then 1 else 0) == (if x.isSending then 1 else 0)
    && (x.io >= 0 && !x.isSending && x.queue != [] ==> t.linked + t.wake >= 1)
  }

  /** The reservation accounting of the send queue. */
  predicate QueueInv(x: Slot, t: Tally) {
    && |x.queue| == x.size + t.linked + t.take + t.drainTake + t.restore + t.drainEnd
    && x.size + t.restore + t.drainEnd >= 0
    && (t.batch >= 1 && x.sending == [] ==> x.size >= 1)
    && (x.io < 0 && t.freeing + t.draining + t.drainTake == 0 ==> x.queue == [])
  }

  predicate Stored(x: Slot) {
    1 <= |x.sending| <= MAX_SEND_PACKET && x.sendingCount == |x.sending| && x.freed == 0
  }

  predicate NothingInHand(x: Slot) {
    x.sending == [] && x.sendingCount == 0 && x.freed == 0
  }

  /** What `sendingPackets` holds at each stage of a send. */
  predicate BatchInv(x: Slot, t: Tally) {
    && (Filling(t) >= 1 ==> x.sendingCount == 0 && x.freed == 0 && |x.sending| <= MAX_SEND_PACKET)
    && (t.take + t.restore >= 1 ==> |x.sending| < MAX_SEND_PACKET)
    && (t.restore + t.full >= 1 ==> |x.sending| >= 1)
    && (t.ready + t.posting + x.sendOut >= 1 || (x.failed && x.io >= 0) ==> Stored(x))
    && (t.clearing + t.freeing >= 1 ==> x.sendingCount == |x.sending| && x.freed <= |x.sending|)
    && (x.io >= 0 && Filling(t) + t.ready + t.posting + t.clearing + x.sendOut == 0 && !x.failed ==> NothingInHand(x))
    && (x.io < 0 && t.freeing == 0 ==> NothingInHand(x))
  }

  /** Packets reach `WSASend` in the order in which they were linked. */
  predicate OrderInv(x: Slot, t: Tally) {
    && (x.io >= 0 ==>
          x.linked == x.posted + (if Filling(t) + t.ready + t.posting >= 1 then x.sending else []) + x.queue)
    && (t.initd + t.inc >= 1 ==> x.linked == [] && x.posted == [] && !x.failed)
  }

  predicate SlotInv(x: Slot, t: Tally, stacked: nat) {
    && CountInv(x, t) && LifeInv(x, t, stacked) && RecvInv(x, t) && SendInv(x, t) && QueueInv(x, t) && BatchInv(x, t)
    && OrderInv(x, t)
  }

  /** The change of the number of stack entries of a slot that a step makes. */
  function Pushes(pc: Pc, c: Choice): nat {
    if (pc.AcPopped? && !c.Succeeds?) || pc.RlPush? then 1 else 0
  }

  /** The session ID that an agent relies on, if any, otherwise -1. */
  function KnownId(pc: Pc): int {
    match pc
    case AcReady(_, id) => id
    case AcCounted(_, id) => id
    case AcLive(_, id) => id
    case AqOk(_, id, _) => id
    case SdShared(_, id, _) => id
    case _ => -1
  }
}
