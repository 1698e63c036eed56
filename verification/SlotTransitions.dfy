/** Every transition of an agent keeps the invariant of the slot it works on; `r` counts the other
    agents at the slot. */
module SlotTransitions {
  import opened Tally
  import opened Server

  lemma Refuse(x: Slot, r: Tally, n: nat)
    requires SlotInv(x, r.(popped := r.popped + 1), n)
    ensures SlotInv(x, r, n + 1)
  {
  }

  lemma Initialise(x: Slot, r: Tally, n: nat, id: nat)
    requires SlotInv(x, r.(popped := r.popped + 1), n)
    ensures SlotInv(InitSlot(x, id), r.(initd := r.initd + 1), n)
  {
  }

  lemma CountAccept(x: Slot, r: Tally, n: nat)
    requires SlotInv(x, r.(initd := r.initd + 1), n)
    requires Refs(r.(inc := r.inc + 1)) < RELEASE - 2
    ensures SlotInv(x.(io := x.io + 1), r.(inc := r.inc + 1), n)
  {
  }

  lemma GoLive(x: Slot, r: Tally, n: nat)
    requires SlotInv(x, r.(inc := r.inc + 1), n)
    ensures SlotInv(x.(io := ClearFlag(x.io)), r.(live := r.live + 1), n)
  {
  }

  lemma TellAccept(x: Slot, r: Tally, n: nat)
    requires SlotInv(x, r.(live := r.live + 1), n)
    ensures SlotInv(x, r.(told := r.told + 1), n)
  {
  }

  lemma CountRecv(x: Slot, r: Tally, n: nat)
    requires SlotInv(x, r.(told := r.told + 1), n)
    requires Refs(r.(recv := r.recv + 1)) < RELEASE - 2
    ensures SlotInv(x.(io := x.io + 1), r.(recv := r.recv + 1), n)
  {
  }

  lemma PostRecv(x: Slot, r: Tally, n: nat)
    requires SlotInv(x, r.(recv := r.recv + 1), n)
    ensures SlotInv(x.(recvOut := x.recvOut + 1), r.(held := r.held + 1), n)
  {
  }

  lemma RecvRefused(x: Slot, r: Tally, n: nat)
    requires SlotInv(x, r.(recv := r.recv + 1), n)
    ensures SlotInv(x.(ended := true), r.(recvBad := r.recvBad + 1), n)
  {
  }

  lemma UncountRecv(x: Slot, r: Tally, n: nat)
    requires SlotInv(x, r.(recvBad := r.recvBad + 1), n)
    ensures x.io - 1 != 0
    ensures SlotInv(x.(io := x.io - 1), r.(held := r.held + 1), n)
  {
  }

  lemma RepostRecv(x: Slot, r: Tally, n: nat)
    requires SlotInv(x, r.(rv := r.rv + 1), n)
    ensures SlotInv(x.(recvOut := x.recvOut + 1), r, n)
  {
  }

  lemma StopRecv(x: Slot, r: Tally, n: nat)
    requires SlotInv(x, r.(rv := r.rv + 1), n)
    ensures SlotInv(x.(ended := true), r.(held := r.held + 1), n)
  {
  }

  lemma CheckFails(x: Slot, r: Tally, n: nat)
    requires SlotInv(x, r.(held := r.held + 1), n)
    ensures SlotInv(x, r.(weak := r.weak + 1), n)
  {
  }

  lemma ShutSocket(x: Slot, r: Tally, n: nat)
    requires SlotInv(x, r.(held := r.held + 1), n)
    ensures SlotInv(x.(shut := true), r.(held := r.held + 1), n)
  {
  }

  lemma FailReturn(x: Slot, r: Tally, n: nat)
    requires SlotInv(x, r.(weak := r.weak + 1), n)
    requires x.io - 1 != 0
    ensures SlotInv(x.(io := x.io - 1), r, n)
  {
  }

  lemma FailReturnLast(x: Slot, r: Tally, n: nat)
    requires SlotInv(x, r.(weak := r.weak + 1), n)
    requires x.io - 1 == 0
    ensures SlotInv(x.(io := x.io - 1), r.(casing := r.casing + 1), n)
  {
  }

  lemma LinkPacket(x: Slot, r: Tally, n: nat, id: nat)
    requires SlotInv(x, r.(held := r.held + 1), n)
    ensures SlotInv(x.(queue := x.queue + [id], linked := x.linked + [id]), r.(linked := r.linked + 1), n)
  {
  }

  lemma CountPacket(x: Slot, r: Tally, n: nat)
    requires SlotInv(x, r.(linked := r.linked + 1), n)
    ensures SlotInv(x.(size := x.size + 1), r.(wake := r.wake + 1), n)
  {
  }

  lemma ReturnLast(x: Slot, r: Tally, n: nat)
    requires SlotInv(x, r.(held := r.held + 1), n)
    requires x.io - 1 == 0
    ensures SlotInv(x.(io := x.io - 1), r.(casing := r.casing + 1), n)
  {
  }

  lemma ReturnOther(x: Slot, r: Tally, n: nat)
    requires SlotInv(x, r.(held := r.held + 1), n)
    requires x.io - 1 != 0
    ensures SlotInv(x.(io := x.io - 1), r, n)
  {
  }

  lemma SendBusy(x: Slot, r: Tally, n: nat)
    requires SlotInv(x, r.(wake := r.wake + 1), n)
    requires x.isSending
    ensures SlotInv(x, r.(held := r.held + 1), n)
  {
  }

  lemma TakeSend(x: Slot, r: Tally, n: nat)
    requires SlotInv(x, r.(wake := r.wake + 1), n)
    requires !x.isSending
    ensures SlotInv(x.(isSending := true), r.(own := r.own + 1), n)
  {
  }

  lemma StartBatch(x: Slot, r: Tally, n: nat)
    requires SlotInv(x, r.(own := r.own + 1), n)
    requires x.size > 0
    requires x.sending == [] && x.sendingCount == 0 && x.freed == 0
    ensures SlotInv(x.(sending := [], freed := 0), r.(batch := r.batch + 1), n)
  {
  }

  lemma DropSend(x: Slot, r: Tally, n: nat)
    requires SlotInv(x, r.(own := r.own + 1), n)
    requires x.sending == [] && x.sendingCount == 0 && x.freed == 0
    ensures SlotInv(x.(isSending := false), r.(wake := r.wake + 1), n)
  {
  }

  lemma NothingLeft(x: Slot, r: Tally, n: nat)
    requires SlotInv(x, r.(wake := r.wake + 1), n)
    requires x.size == 0
    ensures SlotInv(x, r.(held := r.held + 1), n)
  {
  }

  lemma Reserve(x: Slot, r: Tally, n: nat)
    requires SlotInv(x, r.(batch := r.batch + 1), n)
    requires |x.sending| < MAX_SEND_PACKET
    requires x.size - 1 >= 0
    ensures SlotInv(x.(size := x.size - 1), r.(take := r.take + 1), n)
  {
  }

  lemma FindEmpty(x: Slot, r: Tally, n: nat)
    requires SlotInv(x, r.(batch := r.batch + 1), n)
    requires |x.sending| < MAX_SEND_PACKET
    requires x.size - 1 < 0
    ensures SlotInv(x.(size := x.size - 1), r.(restore := r.restore + 1), n)
  {
  }

  lemma FillUp(x: Slot, r: Tally, n: nat)
    requires SlotInv(x, r.(batch := r.batch + 1), n)
    requires |x.sending| >= MAX_SEND_PACKET
    ensures SlotInv(x, r.(full := r.full + 1), n)
  {
  }

  lemma TakePacket(x: Slot, r: Tally, n: nat)
    requires SlotInv(x, r.(take := r.take + 1), n)
    ensures x.queue != []
    ensures SlotInv(x.(queue := x.queue[1..], sending := x.sending + [x.queue[0]]), r.(batch := r.batch + 1), n)
  {
  }

  lemma RestoreSize(x: Slot, r: Tally, n: nat)
    requires SlotInv(x, r.(restore := r.restore + 1), n)
    ensures SlotInv(x.(size := x.size + 1), r.(full := r.full + 1), n)
  {
  }

  lemma StoreCount(x: Slot, r: Tally, n: nat)
    requires SlotInv(x, r.(full := r.full + 1), n)
    ensures SlotInv(x.(sendingCount := |x.sending|), r.(ready := r.ready + 1), n)
  {
  }

  lemma CountSend(x: Slot, r: Tally, n: nat)
    requires SlotInv(x, r.(ready := r.ready + 1), n)
    requires Refs(r.(posting := r.posting + 1)) < RELEASE - 2
    ensures SlotInv(x.(io := x.io + 1), r.(posting := r.posting + 1), n)
  {
  }

  lemma PostSend(x: Slot, r: Tally, n: nat)
    requires SlotInv(x, r.(posting := r.posting + 1), n)
    ensures SlotInv(x.(sendOut := x.sendOut + 1, posted := x.posted + x.sending), r.(held := r.held + 1), n)
  {
  }

  lemma SendRefused(x: Slot, r: Tally, n: nat)
    requires SlotInv(x, r.(posting := r.posting + 1), n)
    ensures SlotInv(x.(failed := true, posted := x.posted + x.sending), r.(bad := r.bad + 1), n)
  {
  }

  lemma UncountSend(x: Slot, r: Tally, n: nat)
    requires SlotInv(x, r.(bad := r.bad + 1), n)
    ensures x.io - 1 != 0
    ensures SlotInv(x.(io := x.io - 1), r.(held := r.held + 1), n)
  {
  }

  lemma FreeSent(x: Slot, r: Tally, n: nat)
    requires SlotInv(x, r.(clearing := r.clearing + 1), n)
    requires x.freed < x.sendingCount
    ensures x.freed < |x.sending|
    ensures SlotInv(x.(freed := x.freed + 1), r.(clearing := r.clearing + 1), n)
  {
  }

  lemma AllSentFreed(x: Slot, r: Tally, n: nat)
    requires SlotInv(x, r.(clearing := r.clearing + 1), n)
    requires x.freed >= x.sendingCount
    ensures SlotInv(x.(sendingCount := 0, sending := [], freed := 0), r.(own := r.own + 1), n)
  {
  }

  lemma LoseRace(x: Slot, r: Tally, n: nat)
    requires SlotInv(x, r.(casing := r.casing + 1), n)
    requires x.io != 0
    ensures SlotInv(x, r, n)
  {
  }

  lemma WinRace(x: Slot, r: Tally, n: nat)
    requires SlotInv(x, r.(casing := r.casing + 1), n)
    requires x.io == 0
    ensures SlotInv(x.(io := -RELEASE), r.(freeing := r.freeing + 1), n)
  {
  }

  lemma FreeUnsent(x: Slot, r: Tally, n: nat)
    requires SlotInv(x, r.(freeing := r.freeing + 1), n)
    requires x.freed < x.sendingCount
    ensures x.freed < |x.sending|
    ensures SlotInv(x.(freed := x.freed + 1), r.(freeing := r.freeing + 1), n)
  {
  }

  lemma AllUnsentFreed(x: Slot, r: Tally, n: nat)
    requires SlotInv(x, r.(freeing := r.freeing + 1), n)
    requires x.freed >= x.sendingCount
    ensures SlotInv(x.(sendingCount := 0, sending := [], freed := 0), r.(draining := r.draining + 1), n)
  {
  }

  lemma DrainReserve(x: Slot, r: Tally, n: nat)
    requires SlotInv(x, r.(draining := r.draining + 1), n)
    requires x.size - 1 >= 0
    ensures SlotInv(x.(size := x.size - 1), r.(drainTake := r.drainTake + 1), n)
  {
  }

  lemma DrainEmpty(x: Slot, r: Tally, n: nat)
    requires SlotInv(x, r.(draining := r.draining + 1), n)
    requires x.size - 1 < 0
    ensures SlotInv(x.(size := x.size - 1), r.(drainEnd := r.drainEnd + 1), n)
  {
  }

  lemma DrainPacket(x: Slot, r: Tally, n: nat)
    requires SlotInv(x, r.(drainTake := r.drainTake + 1), n)
    ensures x.queue != []
    ensures SlotInv(x.(queue := x.queue[1..]), r.(draining := r.draining + 1), n)
  {
  }

  lemma DrainRestore(x: Slot, r: Tally, n: nat)
    requires SlotInv(x, r.(drainEnd := r.drainEnd + 1), n)
    ensures SlotInv(x.(size := x.size + 1), r.(telling := r.telling + 1), n)
  {
  }

  lemma TellRelease(x: Slot, r: Tally, n: nat)
    requires SlotInv(x, r.(telling := r.telling + 1), n)
    ensures SlotInv(x, r.(pushing := r.pushing + 1), n)
  {
  }

  lemma PushIndex(x: Slot, r: Tally, n: nat)
    requires SlotInv(x, r.(pushing := r.pushing + 1), n)
    ensures SlotInv(x, r, n + 1)
  {
  }

  lemma PopIndex(x: Slot, r: Tally, n: nat)
    requires SlotInv(x, r, n)
    requires n > 0
    ensures SlotInv(x, r.(popped := r.popped + 1), n - 1)
  {
  }

  lemma AcquireLive(x: Slot, r: Tally, n: nat)
    requires SlotInv(x, r, n)
    requires x.io + 1 >= 0
    requires Refs(r.(held := r.held + 1)) < RELEASE - 2
    ensures SlotInv(x.(io := x.io + 1), r.(held := r.held + 1), n)
  {
  }

  lemma AcquireReleased(x: Slot, r: Tally, n: nat)
    requires SlotInv(x, r, n)
    requires x.io + 1 < 0
    requires Refs(r.(weak := r.weak + 1)) < RELEASE - 2
    ensures SlotInv(x.(io := x.io + 1), r.(weak := r.weak + 1), n)
  {
  }

  lemma RecvCompletes(x: Slot, r: Tally, n: nat)
    requires SlotInv(x, r, n)
    requires x.recvOut > 0
    ensures SlotInv(x.(recvOut := x.recvOut - 1), r.(rv := r.rv + 1), n)
  {
  }

  lemma RecvErrs(x: Slot, r: Tally, n: nat)
    requires SlotInv(x, r, n)
    requires x.recvOut > 0
    ensures SlotInv(x.(recvOut := x.recvOut - 1, ended := true), r.(held := r.held + 1), n)
  {
  }

  lemma SendCompletes(x: Slot, r: Tally, n: nat)
    requires SlotInv(x, r, n)
    requires x.sendOut > 0
    ensures SlotInv(x.(sendOut := x.sendOut - 1), r.(clearing := r.clearing + 1), n)
  {
  }

  lemma SendErrs(x: Slot, r: Tally, n: nat)
    requires SlotInv(x, r, n)
    requires x.sendOut > 0
    ensures SlotInv(x.(sendOut := x.sendOut - 1, failed := true), r.(held := r.held + 1), n)
  {
  }
}
