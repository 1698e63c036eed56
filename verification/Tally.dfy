/** Points of the code that works on one session slot, and how many threads are at each. */
module Tally {

  datatype Kind =
    | Nowhere
    | Popped      // accept: index taken from the stack
    | Initd       // accept: slot initialised
    | Inc         // accept: `ioCount` raised, flag still set
    | Live        // accept: flag cleared, `OnAccept` still to come
    | Told        // accept: `OnAccept` done
    | Recv        // accept: holds the first receive's count too
    | RecvBad     // accept: the first `WSARecv` failed
    | Rv          // inside `RecvProc`
    | Weak        // in `AcquireSession` and bound to fail or seen the flag
    | Held        // holds one count and owes nothing else
    | Linked      // sender: packet linked, not yet counted by the queue
    | Wake        // about to exchange `isSending`, or to re-check the queue
    | Own         // owns the send side, nothing in hand
    | Batch       // owns the send side, filling the batch
    | Take        // filling, holds a queue reservation
    | Restore     // filling, found the queue empty
    | Full        // batch complete, `sendingCount` not stored
    | Ready       // batch stored, `ioCount` not raised
    | Posting     // about to call `WSASend`
    | Bad         // `WSASend` failed, count not returned
    | Clearing    // freeing a completed batch
    | Casing      // between a decrement to 0 and the release CAS
    | Freeing     // releaser, freeing the batch
    | Draining    // releaser, draining the queue
    | DrainTake   // releaser, holds a queue reservation
    | DrainEnd    // releaser, found the queue empty
    | Telling     // releaser, `OnRelease` still to come
    | Pushing     // releaser, index not yet pushed

  datatype Tally = Tally(
    popped: nat, initd: nat, inc: nat, live: nat, told: nat, recv: nat, recvBad: nat, rv: nat,
    weak: nat, held: nat, linked: nat, wake: nat, own: nat, batch: nat, take: nat, restore: nat,
    full: nat, ready: nat, posting: nat, bad: nat, clearing: nat, casing: nat, freeing: nat,
    draining: nat, drainTake: nat, drainEnd: nat, telling: nat, pushing: nat)

  const NOBODY := Tally(0, 0, 0, 0, 0, 0, 0, 0, 0, 0, 0, 0, 0, 0, 0, 0, 0, 0, 0, 0, 0, 0, 0, 0, 0, 0, 0, 0)

  predicate NoOne(t: Tally) {
    t.popped + t.initd + t.inc + t.live + t.told + t.recv + t.recvBad + t.rv + t.weak + t.held +
    t.linked + t.wake + t.own + t.batch + t.take + t.restore + t.full + t.ready + t.posting +
    t.bad + t.clearing + t.casing + t.freeing + t.draining + t.drainTake + t.drainEnd +
    t.telling + t.pushing == 0
  }

  /** One more thread at one point. */
  function Raise(t: Tally, k: Kind): Tally {
    match k
    case Nowhere => t
    case Popped => t.(popped := t.popped + 1)
    case Initd => t.(initd := t.initd + 1)
    case Inc => t.(inc := t.inc + 1)
    case Live => t.(live := t.live + 1)
    case Told => t.(told := t.told + 1)
    case Recv => t.(recv := t.recv + 1)
    case RecvBad => t.(recvBad := t.recvBad + 1)
    case Rv => t.(rv := t.rv + 1)
    case Weak => t.(weak := t.weak + 1)
    case Held => t.(held := t.held + 1)
    case Linked => t.(linked := t.linked + 1)
    case Wake => t.(wake := t.wake + 1)
    case Own => t.(own := t.own + 1)
    case Batch => t.(batch := t.batch + 1)
    case Take => t.(take := t.take + 1)
    case Restore => t.(restore := t.restore + 1)
    case Full => t.(full := t.full + 1)
    case Ready => t.(ready := t.ready + 1)
    case Posting => t.(posting := t.posting + 1)
    case Bad => t.(bad := t.bad + 1)
    case Clearing => t.(clearing := t.clearing + 1)
    case Casing => t.(casing := t.casing + 1)
    case Freeing => t.(freeing := t.freeing + 1)
    case Draining => t.(draining := t.draining + 1)
    case DrainTake => t.(drainTake := t.drainTake + 1)
    case DrainEnd => t.(drainEnd := t.drainEnd + 1)
    case Telling => t.(telling := t.telling + 1)
    case Pushing => t.(pushing := t.pushing + 1)
  }

  function Is(k: Kind, point: Kind): nat {
    if k == point then 1 else 0
  }

  lemma RaiseAccepts(t: Tally, k: Kind)
    ensures Raise(t, k).popped == t.popped + Is(k, Popped)
    ensures Raise(t, k).initd == t.initd + Is(k, Initd)
    ensures Raise(t, k).inc == t.inc + Is(k, Inc)
    ensures Raise(t, k).live == t.live + Is(k, Live)
    ensures Raise(t, k).told == t.told + Is(k, Told)
    ensures Raise(t, k).recv == t.recv + Is(k, Recv)
    ensures Raise(t, k).recvBad == t.recvBad + Is(k, RecvBad)
    ensures Raise(t, k).rv == t.rv + Is(k, Rv)
  {
  }

  lemma RaiseHolds(t: Tally, k: Kind)
    ensures Raise(t, k).weak == t.weak + Is(k, Weak)
    ensures Raise(t, k).held == t.held + Is(k, Held)
    ensures Raise(t, k).linked == t.linked + Is(k, Linked)
    ensures Raise(t, k).wake == t.wake + Is(k, Wake)
    ensures Raise(t, k).own == t.own + Is(k, Own)
    ensures Raise(t, k).batch == t.batch + Is(k, Batch)
    ensures Raise(t, k).take == t.take + Is(k, Take)
    ensures Raise(t, k).restore == t.restore + Is(k, Restore)
  {
  }

  lemma RaiseSends(t: Tally, k: Kind)
    ensures Raise(t, k).full == t.full + Is(k, Full)
    ensures Raise(t, k).ready == t.ready + Is(k, Ready)
    ensures Raise(t, k).posting == t.posting + Is(k, Posting)
    ensures Raise(t, k).bad == t.bad + Is(k, Bad)
    ensures Raise(t, k).clearing == t.clearing + Is(k, Clearing)
  {
  }

  lemma RaiseReleases(t: Tally, k: Kind)
    ensures Raise(t, k).casing == t.casing + Is(k, Casing)
    ensures Raise(t, k).freeing == t.freeing + Is(k, Freeing)
    ensures Raise(t, k).draining == t.draining + Is(k, Draining)
    ensures Raise(t, k).drainTake == t.drainTake + Is(k, DrainTake)
    ensures Raise(t, k).drainEnd == t.drainEnd + Is(k, DrainEnd)
    ensures Raise(t, k).telling == t.telling + Is(k, Telling)
    ensures Raise(t, k).pushing == t.pushing + Is(k, Pushing)
  {
  }

  /** Field by field, what one more thread changes. */
  lemma RaiseFields(t: Tally, k: Kind)
    ensures Raise(t, k).popped == t.popped + Is(k, Popped)
    ensures Raise(t, k).initd == t.initd + Is(k, Initd)
    ensures Raise(t, k).inc == t.inc + Is(k, Inc)
    ensures Raise(t, k).live == t.live + Is(k, Live)
    ensures Raise(t, k).told == t.told + Is(k, Told)
    ensures Raise(t, k).recv == t.recv + Is(k, Recv)
    ensures Raise(t, k).recvBad == t.recvBad + Is(k, RecvBad)
    ensures Raise(t, k).rv == t.rv + Is(k, Rv)
    ensures Raise(t, k).weak == t.weak + Is(k, Weak)
    ensures Raise(t, k).held == t.held + Is(k, Held)
    ensures Raise(t, k).linked == t.linked + Is(k, Linked)
    ensures Raise(t, k).wake == t.wake + Is(k, Wake)
    ensures Raise(t, k).own == t.own + Is(k, Own)
    ensures Raise(t, k).batch == t.batch + Is(k, Batch)
    ensures Raise(t, k).take == t.take + Is(k, Take)
    ensures Raise(t, k).restore == t.restore + Is(k, Restore)
    ensures Raise(t, k).full == t.full + Is(k, Full)
    ensures Raise(t, k).ready == t.ready + Is(k, Ready)
    ensures Raise(t, k).posting == t.posting + Is(k, Posting)
    ensures Raise(t, k).bad == t.bad + Is(k, Bad)
    ensures Raise(t, k).clearing == t.clearing + Is(k, Clearing)
    ensures Raise(t, k).casing == t.casing + Is(k, Casing)
    ensures Raise(t, k).freeing == t.freeing + Is(k, Freeing)
    ensures Raise(t, k).draining == t.draining + Is(k, Draining)
    ensures Raise(t, k).drainTake == t.drainTake + Is(k, DrainTake)
    ensures Raise(t, k).drainEnd == t.drainEnd + Is(k, DrainEnd)
    ensures Raise(t, k).telling == t.telling + Is(k, Telling)
    ensures Raise(t, k).pushing == t.pushing + Is(k, Pushing)
  {
    hide Raise, Is;
    RaiseAccepts(t, k);
    RaiseHolds(t, k);
    RaiseSends(t, k);
    RaiseReleases(t, k);
  }

  /** The order in which threads are counted does not matter. */
  lemma RaiseSwap(t: Tally, j: Kind, k: Kind)
    ensures Raise(Raise(t, j), k) == Raise(Raise(t, k), j)
  {
    hide Raise, Is;
    RaiseFields(t, j);
    RaiseFields(t, k);
    RaiseFields(Raise(t, j), k);
    RaiseFields(Raise(t, k), j);
  }
}
