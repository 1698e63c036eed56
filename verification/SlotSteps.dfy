/** From single transitions to the code of each agent: whatever an agent does next, it keeps the
    invariant of its slot and never breaks into the debugger. */
module SlotSteps {
  import opened Tally
  import opened Server
  import opened SlotTransitions

  /** The agent counted at `pc` may move: its slot is in order and `ioCount` cannot overflow. */
  ghost predicate Ready(x: Slot, r: Tally, pc: Pc, o: Outcome, n: nat) {
    SlotInv(x, Raise(r, Spot(pc)), n) && Refs(Raise(r, Spot(o.pc))) < RELEASE - 2
  }

  ghost predicate Kept(r: Tally, o: Outcome, n: nat) {
    o.ok && SlotInv(o.slot, Raise(r, Spot(o.pc)), n)
  }

  lemma AcceptBeginKeeps(pc: Pc, x: Slot, r: Tally, n: nat, c: Choice, gen: nat)
    requires pc.AcPopped? || pc.AcReady? || pc.AcCounted?
    requires Ready(x, r, pc, AcceptStep(pc, x, c, gen), n)
    ensures Kept(r, AcceptStep(pc, x, c, gen), n + if pc.AcPopped? && !c.Succeeds? then 1 else 0)
  {
    hide SlotInv, Refs, InitSlot, ClearFlag;
    match pc
    case AcPopped(i) =>
      if c.Succeeds? {
        Initialise(x, r, n, (gen + 1) * INDICES + i);
      } else {
        Refuse(x, r, n);
      }
    case AcReady(_, _) => CountAccept(x, r, n);
    case AcCounted(_, _) => GoLive(x, r, n);
  }

  lemma AcceptEndKeeps(pc: Pc, x: Slot, r: Tally, n: nat, c: Choice, gen: nat)
    requires pc.AcLive? || pc.AcTold? || pc.AcRecv? || pc.AcRecvBad?
    requires Ready(x, r, pc, AcceptStep(pc, x, c, gen), n)
    ensures Kept(r, AcceptStep(pc, x, c, gen), n)
  {
    hide SlotInv, Refs, InitSlot, ClearFlag;
    match pc
    case AcLive(_, _) => TellAccept(x, r, n);
    case AcTold(_) => CountRecv(x, r, n);
    case AcRecv(_) =>
      PostRecv(x, r, n);
      RecvRefused(x, r, n);
    case AcRecvBad(_) => UncountRecv(x, r, n);
  }

  lemma AcceptKeeps(pc: Pc, x: Slot, r: Tally, n: nat, c: Choice, gen: nat)
    requires InAccept(pc) && Ready(x, r, pc, AcceptStep(pc, x, c, gen), n)
    ensures Kept(r, AcceptStep(pc, x, c, gen), n + if pc.AcPopped? && !c.Succeeds? then 1 else 0)
  {
    hide Ready, Kept, AcceptStep;
    if pc.AcPopped? || pc.AcReady? || pc.AcCounted? {
      AcceptBeginKeeps(pc, x, r, n, c, gen);
    } else {
      AcceptEndKeeps(pc, x, r, n, c, gen);
    }
  }

  lemma RecvKeeps(pc: Pc, x: Slot, r: Tally, n: nat, c: Choice)
    requires InRecv(pc) && Ready(x, r, pc, RecvStep(pc, x, c), n)
    ensures Kept(r, RecvStep(pc, x, c), n)
  {
    hide SlotInv, Refs;
    RepostRecv(x, r, n);
    StopRecv(x, r, n);
  }

  lemma CheckKeeps(pc: Pc, x: Slot, r: Tally, n: nat)
    requires pc.AqCheck? || pc.AqOk? || pc.SdShared? || pc.SdLinked?
    requires Ready(x, r, pc, AcquireStep(pc, x), n)
    ensures Kept(r, AcquireStep(pc, x), n)
  {
    hide SlotInv, Refs;
    match pc
    case AqCheck(_, _, flag, _) => if !flag { CheckFails(x, r, n); }
    case AqOk(_, _, _) => ShutSocket(x, r, n);
    case SdShared(_, _, p) => LinkPacket(x, r, n, p);
    case SdLinked(_, _) => CountPacket(x, r, n);
  }

  lemma ReturnKeeps(pc: Pc, x: Slot, r: Tally, n: nat)
    requires pc.AqFail? || pc.Return?
    requires Ready(x, r, pc, AcquireStep(pc, x), n)
    ensures Kept(r, AcquireStep(pc, x), n)
  {
    hide SlotInv, Refs;
    match pc
    case AqFail(_, _) => if x.io - 1 == 0 { FailReturnLast(x, r, n); } else { FailReturn(x, r, n); }
    case Return(_) => if x.io - 1 == 0 { ReturnLast(x, r, n); } else { ReturnOther(x, r, n); }
  }

  lemma AcquireKeeps(pc: Pc, x: Slot, r: Tally, n: nat)
    requires InAcquire(pc) && Ready(x, r, pc, AcquireStep(pc, x), n)
    ensures Kept(r, AcquireStep(pc, x), n)
  {
    hide Ready, Kept, AcquireStep;
    if pc.AqFail? || pc.Return? { ReturnKeeps(pc, x, r, n); } else { CheckKeeps(pc, x, r, n); }
  }

  lemma WakeKeeps(pc: Pc, x: Slot, r: Tally, n: nat)
    requires pc.SpExchange? || pc.SpRecheck?
    requires Ready(x, r, pc, PostStep(pc, x), n)
    ensures Kept(r, PostStep(pc, x), n)
  {
    hide SlotInv, Refs;
    match pc
    case SpExchange(_) => if x.isSending { SendBusy(x, r, n); } else { TakeSend(x, r, n); }
    case SpRecheck(_) => if x.size == 0 { NothingLeft(x, r, n); }
  }

  lemma OwnKeeps(pc: Pc, x: Slot, r: Tally, n: nat)
    requires pc.SpSize? || pc.SpClear?
    requires Ready(x, r, pc, PostStep(pc, x), n)
    ensures Kept(r, PostStep(pc, x), n)
  {
    hide SlotInv, Refs;
    OwnerIsClean(x, r, n);
    match pc
    case SpSize(_) => if x.size > 0 { StartBatch(x, r, n); }
    case SpClear(_) => DropSend(x, r, n);
  }

  lemma PostKeeps(pc: Pc, x: Slot, r: Tally, n: nat)
    requires InPost(pc) && Ready(x, r, pc, PostStep(pc, x), n)
    ensures Kept(r, PostStep(pc, x), n)
  {
    hide Ready, Kept, PostStep;
    if pc.SpExchange? || pc.SpRecheck? { WakeKeeps(pc, x, r, n); } else { OwnKeeps(pc, x, r, n); }
  }

  lemma FillKeeps(pc: Pc, x: Slot, r: Tally, n: nat, c: Choice)
    requires pc.SpBatch? || pc.SpTake? || pc.SpRestore?
    requires Ready(x, r, pc, BatchStep(pc, x, c), n)
    ensures Kept(r, BatchStep(pc, x, c), n)
  {
    hide SlotInv, Refs;
    match pc
    case SpBatch(_) =>
      if |x.sending| >= MAX_SEND_PACKET { FillUp(x, r, n); }
      else if x.size - 1 >= 0 { Reserve(x, r, n); }
      else { FindEmpty(x, r, n); }
    case SpTake(_) => TakePacket(x, r, n);
    case SpRestore(_) => RestoreSize(x, r, n);
  }

  lemma StoreKeeps(pc: Pc, x: Slot, r: Tally, n: nat, c: Choice)
    requires pc.SpStore? || pc.SpCount?
    requires Ready(x, r, pc, BatchStep(pc, x, c), n)
    ensures Kept(r, BatchStep(pc, x, c), n)
  {
    hide SlotInv, Refs;
    match pc
    case SpStore(_) => StoreCount(x, r, n);
    case SpCount(_) => CountSend(x, r, n);
  }

  lemma HandOverKeeps(pc: Pc, x: Slot, r: Tally, n: nat, c: Choice)
    requires pc.SpSend? || pc.SpBad?
    requires Ready(x, r, pc, BatchStep(pc, x, c), n)
    ensures Kept(r, BatchStep(pc, x, c), n)
  {
    hide SlotInv, Refs;
    match pc
    case SpSend(_) => if c.Succeeds? { PostSend(x, r, n); } else { SendRefused(x, r, n); }
    case SpBad(_) => UncountSend(x, r, n);
  }

  lemma DoneKeeps(pc: Pc, x: Slot, r: Tally, n: nat)
    requires InDone(pc) && Ready(x, r, pc, DoneStep(pc, x), n)
    ensures Kept(r, DoneStep(pc, x), n)
  {
    hide SlotInv, Refs;
    match pc
    case ScFree(_) => if x.freed < x.sendingCount { FreeSent(x, r, n); } else { AllSentFreed(x, r, n); }
    case ScClear(_) =>
      OwnerIsClean(x, r, n);
      DropSend(x, r, n);
  }

  lemma RaceKeeps(pc: Pc, x: Slot, r: Tally, n: nat)
    requires pc.RelCas? || pc.RlFree?
    requires Ready(x, r, pc, ReleaseStep(pc, x), n)
    ensures Kept(r, ReleaseStep(pc, x), n)
  {
    hide SlotInv, Refs;
    match pc
    case RelCas(_) => if x.io == 0 { WinRace(x, r, n); } else { LoseRace(x, r, n); }
    case RlFree(_) => if x.freed < x.sendingCount { FreeUnsent(x, r, n); } else { AllUnsentFreed(x, r, n); }
  }

  lemma TellKeeps(pc: Pc, x: Slot, r: Tally, n: nat)
    requires pc.RlTell? || pc.RlPush?
    requires Ready(x, r, pc, ReleaseStep(pc, x), n)
    ensures Kept(r, ReleaseStep(pc, x), n + if pc.RlPush? then 1 else 0)
  {
    hide SlotInv, Refs;
    match pc
    case RlTell(_) => TellRelease(x, r, n);
    case RlPush(_) => PushIndex(x, r, n);
  }

  lemma DrainKeeps(pc: Pc, x: Slot, r: Tally, n: nat)
    requires pc.RlDrain? || pc.RlTake?
    requires Ready(x, r, pc, ReleaseStep(pc, x), n)
    ensures Kept(r, ReleaseStep(pc, x), n)
  {
    hide SlotInv, Refs;
    match pc
    case RlDrain(_) => if x.size - 1 >= 0 { DrainReserve(x, r, n); } else { DrainEmpty(x, r, n); }
    case RlTake(_) => DrainPacket(x, r, n);
  }

  lemma DrainedKeeps(pc: Pc, x: Slot, r: Tally, n: nat)
    requires pc.RlPacket? || pc.RlRestore?
    requires Ready(x, r, pc, ReleaseStep(pc, x), n)
    ensures Kept(r, ReleaseStep(pc, x), n)
  {
    hide SlotInv, Refs;
    if pc.RlRestore? { DrainRestore(x, r, n); }
  }

  lemma ReleaseKeeps(pc: Pc, x: Slot, r: Tally, n: nat)
    requires InRelease(pc) && Ready(x, r, pc, ReleaseStep(pc, x), n)
    ensures Kept(r, ReleaseStep(pc, x), n + if pc.RlPush? then 1 else 0)
  {
    hide Ready, Kept, ReleaseStep;
    if pc.RelCas? || pc.RlFree? { RaceKeeps(pc, x, r, n); }
    else if pc.RlTell? || pc.RlPush? { TellKeeps(pc, x, r, n); }
    else if pc.RlDrain? || pc.RlTake? { DrainKeeps(pc, x, r, n); }
    else { DrainedKeeps(pc, x, r, n); }
  }

  /** An owner that is neither filling nor freeing has nothing in hand. */
  lemma OwnerIsClean(x: Slot, r: Tally, n: nat)
    requires SlotInv(x, r.(own := r.own + 1), n)
    ensures NothingInHand(x)
  {
  }

  lemma StepKeeps(pc: Pc, x: Slot, r: Tally, n: nat, c: Choice, gen: nat)
    requires pc != Idle && Ready(x, r, pc, SlotStep(pc, x, c, gen), n)
    ensures Kept(r, SlotStep(pc, x, c, gen), n + Pushes(pc, c))
  {
    hide Ready, Kept, AcceptStep, RecvStep, AcquireStep, PostStep, BatchStep, DoneStep, ReleaseStep;
    if InAccept(pc) { AcceptKeeps(pc, x, r, n, c, gen); }
    else if InRecv(pc) { RecvKeeps(pc, x, r, n, c); }
    else if InAcquire(pc) { AcquireKeeps(pc, x, r, n); }
    else if InPost(pc) { PostKeeps(pc, x, r, n); }
    else if pc.SpBatch? || pc.SpTake? || pc.SpRestore? { FillKeeps(pc, x, r, n, c); }
    else if pc.SpStore? || pc.SpCount? { StoreKeeps(pc, x, r, n, c); }
    else if InBatch(pc) { HandOverKeeps(pc, x, r, n, c); }
    else if InDone(pc) { DoneKeeps(pc, x, r, n); }
    else { ReleaseKeeps(pc, x, r, n); }
  }

  lemma BeginKeeps(b: Begin, i: nat, x: Slot, r: Tally, n: nat)
    requires SlotInv(x, r, n) && Refs(Raise(r, Spot(BeginStep(b, i, x).pc))) < RELEASE - 2
    requires b.Accept? ==> n > 0
    requires b.RecvDone? ==> x.recvOut > 0
    requires b.SendDone? ==> x.sendOut > 0
    ensures Kept(r, BeginStep(b, i, x), if b.Accept? then n - 1 else n)
  {
    hide SlotInv, Refs;
    match b
    case Accept => PopIndex(x, r, n);
    case Acquire(_, _) => if x.io + 1 >= 0 { AcquireLive(x, r, n); } else { AcquireReleased(x, r, n); }
    case RecvDone(ok) => if ok { RecvCompletes(x, r, n); } else { RecvErrs(x, r, n); }
    case SendDone(ok) =>
      if ok { SendCompletes(x, r, n); } else { SendErrs(x, r, n); }
  }
}
