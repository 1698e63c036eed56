/** The lock-free queue of MyLibrary/LockFreeQueue.h as a state machine.

    Any number of threads run `Enqueue` and `Dequeue`; each volatile read, each plain write to a
    shared node and each Interlocked call is one atomic step.  Nodes come from a pool that every
    queue of the same type shares: a freed node can be taken, rewritten and freed again by another
    queue (`Foreign`) or come back into this one, while threads still hold stale pointers to it. */
module LockFreeQueue {
  import opened TaggedPointer
  import opened Tallying

  /** Who may touch a node.  Bookkeeping only: no step of the algorithm reads it. */
  datatype Owner = Pool | Foreign | Listed | Held(thread: nat)

  datatype Node<T> = Node(data: T, next: Stamped, owner: Owner)

  /** A thread's program counter with its live local variables. */
  datatype Local<T> =
    | Idle
    // Enqueue(value), with the node it allocated
    | EnqData(value: T, node: Ptr)
    | EnqInit(value: T, node: Ptr)
    | EnqReadTail(value: T, node: Ptr)
    | EnqReadNext(value: T, node: Ptr, tail: Stamped)
    | EnqRecheck(value: T, node: Ptr, tail: Stamped, next: Stamped)
    | EnqLink(value: T, node: Ptr, tail: Stamped, next: Stamped)
    | EnqHelp(value: T, node: Ptr, tail: Stamped, next: Stamped)
    | EnqSwing(node: Ptr, tail: Stamped)
    | EnqCount
    // Dequeue, after its decrement
    | DeqRestore
    | DeqReadHead
    | DeqReadTail(head: Stamped)
    | DeqReadNext(head: Stamped, tail: Stamped)
    | DeqHelp(tail: Stamped, next: Stamped)
    | DeqReadData(head: Stamped, next: Stamped)
    | DeqSwing(head: Stamped, next: Stamped, data: T)
    | DeqFree(node: Ptr, data: T)

  /** `list` records the addresses from the head node to the last one and `crashed` an access
      outside the node memory; like `owner`, they are written but never read by the algorithm. */
  datatype State<T> = State(
    nodes: map<Ptr, Node<T>>,
    head: Stamped,
    tail: Stamped,
    size: int,
    threads: seq<Local<T>>,
    list: seq<Ptr>,
    crashed: bool)

  datatype Action<T> =
    | StartEnqueue(t: nat, value: T, node: Ptr)
    | StartDequeue(t: nat)
    | Continue(t: nat)
    // the shared node pool and the other queues that use it
    | PoolGrows(node: Ptr, data: T)
    | OtherTakes(node: Ptr)
    | OtherWritesData(node: Ptr, data: T)
    | OtherWritesNext(node: Ptr, next: Ptr)
    | OtherFrees(node: Ptr)

  // ---------------------------------------------------------------- steps

  function Goto<T>(s: State<T>, t: nat, l: Local<T>): State<T>
    requires t < |s.threads|
  {
    s.(threads := s.threads[t := l])
  }

  function Put<T>(s: State<T>, p: Ptr, n: Node<T>): State<T> {
    s.(nodes := s.nodes[p := n])
  }

  /** The node a thread's next step dereferences. */
  function Accessed<T>(l: Local<T>): set<Ptr> {
    match l
    case EnqData(_, node) => {node}
    case EnqInit(_, node) => {node}
    case EnqReadNext(_, _, tail) => {tail.ptr}
    case EnqLink(_, node, tail, _) => {node, tail.ptr}
    case DeqReadNext(head, _) => {head.ptr}
    case DeqReadData(_, next) => {next.ptr}
    case DeqSwing(head, _, _) => {head.ptr}
    case DeqFree(node, _) => {node}
    case _ => {}
  }

  /** A winning CAS on the last node's link: the node becomes part of the queue. */
  function Link<T>(s: State<T>, node: Ptr, tail: Stamped, next: Stamped): State<T>
    requires node in s.nodes && tail.ptr in s.nodes
  {
    var linked := Put(s, tail.ptr, s.nodes[tail.ptr].(next := Rewrite(next, node)));
    Put(linked, node, linked.nodes[node].(owner := Listed)).(list := s.list + [node])
  }

  /** A winning CAS on the head: the old dummy leaves the queue. */
  function TakeHead<T>(s: State<T>, t: nat, head: Stamped, ptr: Ptr): State<T>
    requires head.ptr in s.nodes
  {
    Put(s, head.ptr, s.nodes[head.ptr].(owner := Held(t))).(
      head := Rewrite(head, ptr),
      list := if s.list == [] then [] else s.list[1..])
  }

  /** One step of the code of `Enqueue` or `Dequeue`. */
  function Step<T>(s: State<T>, t: nat): State<T>
    requires t < |s.threads| && Accessed(s.threads[t]) <= s.nodes.Keys
  {
    match s.threads[t]
    case Idle => s
    case EnqData(value, node) =>
      Goto(Put(s, node, s.nodes[node].(data := value)), t, EnqInit(value, node))
    case EnqInit(value, node) =>
      Goto(Put(s, node, s.nodes[node].(next := Rewrite(s.nodes[node].next, NULL))), t, EnqReadTail(value, node))
    case EnqReadTail(value, node) =>
      Goto(s, t, EnqReadNext(value, node, s.tail))
    case EnqReadNext(value, node, tail) =>
      Goto(s, t, EnqRecheck(value, node, tail, s.nodes[tail.ptr].next))
    case EnqRecheck(value, node, tail, next) =>
      if Bits(tail) != Bits(s.tail) then Goto(s, t, EnqReadTail(value, node))
      else if next.ptr == NULL then Goto(s, t, EnqLink(value, node, tail, next))
      else Goto(s, t, EnqHelp(value, node, tail, next))
    case EnqLink(value, node, tail, next) =>
      if Bits(next) == Bits(s.nodes[tail.ptr].next) then Goto(Link(s, node, tail, next), t, EnqSwing(node, tail))
      else Goto(s, t, EnqReadTail(value, node))
    case EnqHelp(value, node, tail, next) =>
      Goto(SwingTail(s, tail, next.ptr), t, EnqReadTail(value, node))
    case EnqSwing(node, tail) =>
      Goto(SwingTail(s, tail, node), t, EnqCount)
    case EnqCount =>
      Goto(s.(size := s.size + 1), t, Idle)
    case DeqRestore =>
      Goto(s.(size := s.size + 1), t, Idle)
    case DeqReadHead =>
      Goto(s, t, DeqReadTail(s.head))
    case DeqReadTail(head) =>
      Goto(s, t, DeqReadNext(head, s.tail))
    case DeqReadNext(head, tail) =>
      var next := s.nodes[head.ptr].next;
      if next.ptr == NULL then Goto(s, t, DeqReadHead)
      else if head.ptr == tail.ptr then Goto(s, t, DeqHelp(tail, next))
      else Goto(s, t, DeqReadData(head, next))
    case DeqHelp(tail, next) =>
      Goto(SwingTail(s, tail, next.ptr), t, DeqReadHead)
    case DeqReadData(head, next) =>
      Goto(s, t, DeqSwing(head, next, s.nodes[next.ptr].data))
    case DeqSwing(head, next, data) =>
      if Bits(head) == Bits(s.head) then Goto(TakeHead(s, t, head, next.ptr), t, DeqFree(head.ptr, data))
      else Goto(s, t, DeqReadHead)
    case DeqFree(node, data) =>
      Goto(Put(s, node, s.nodes[node].(owner := Pool)), t, Idle)
  }

  /** `InterlockedCompareExchange64(&_tail, MakeTagged(GetTag(tail) + 1, ptr), tail)`. */
  function SwingTail<T>(s: State<T>, tail: Stamped, ptr: Ptr): State<T> {
    if Bits(tail) == Bits(s.tail) then s.(tail := Rewrite(tail, ptr)) else s
  }

  /** The one assumption about timing: a word compared by the thread's next step was read fewer
      than 2^17 writes ago. */
  predicate InTime<T>(s: State<T>, l: Local<T>) {
    match l
    case EnqRecheck(_, _, tail, _) => InWindow(tail, s.tail)
    case EnqLink(_, _, tail, next) => tail.ptr in s.nodes ==> InWindow(next, s.nodes[tail.ptr].next)
    case EnqHelp(_, _, tail, _) => InWindow(tail, s.tail)
    case EnqSwing(_, tail) => InWindow(tail, s.tail)
    case DeqHelp(tail, _) => InWindow(tail, s.tail)
    case DeqSwing(head, _, _) => InWindow(head, s.head)
    case _ => true
  }

  predicate Enabled<T>(s: State<T>, a: Action<T>) {
    match a
    case StartEnqueue(t, _, node) =>
      t < |s.threads| && s.threads[t].Idle? && node in s.nodes && s.nodes[node].owner == Pool
    case StartDequeue(t) => t < |s.threads| && s.threads[t].Idle?
    case Continue(t) => t < |s.threads| && !s.threads[t].Idle? && InTime(s, s.threads[t])
    case PoolGrows(node, _) => node != NULL && node !in s.nodes
    case OtherTakes(node) => node in s.nodes && s.nodes[node].owner == Pool
    case OtherWritesData(node, _) => node in s.nodes && s.nodes[node].owner == Foreign
    case OtherWritesNext(node, next) =>
      node in s.nodes && s.nodes[node].owner == Foreign && (next == NULL || next in s.nodes)
    case OtherFrees(node) => node in s.nodes && s.nodes[node].owner == Foreign
  }

  function Apply<T>(s: State<T>, a: Action<T>): State<T>
    requires Enabled(s, a)
  {
    match a
    case StartEnqueue(t, value, node) =>
      Goto(Put(s, node, s.nodes[node].(owner := Held(t))), t, EnqData(value, node))
    case StartDequeue(t) =>
      Goto(s.(size := s.size - 1), t, if s.size - 1 < 0 then DeqRestore else DeqReadHead)
    case Continue(t) =>
      if Accessed(s.threads[t]) <= s.nodes.Keys then Step(s, t) else s.(crashed := true)
    case PoolGrows(node, data) => Put(s, node, Node(data, Stamped(0, NULL), Pool))
    case OtherTakes(node) => Put(s, node, s.nodes[node].(owner := Foreign))
    case OtherWritesData(node, data) => Put(s, node, s.nodes[node].(data := data))
    case OtherWritesNext(node, next) =>
      Put(s, node, s.nodes[node].(next := Rewrite(s.nodes[node].next, next)))
    case OtherFrees(node) => Put(s, node, s.nodes[node].(owner := Pool))
  }

  /** The constructor: a dummy node taken from the pool, no thread inside an operation. */
  ghost predicate Init<T>(s: State<T>) {
    && s.head == s.tail == Stamped(0, s.head.ptr) && s.head.ptr != NULL
    && s.nodes.Keys == {s.head.ptr}
    && s.nodes[s.head.ptr].next.ptr == NULL && s.nodes[s.head.ptr].owner == Listed
    && s.list == [s.head.ptr]
    && s.size == 0
    && (forall t :: 0 <= t < |s.threads| ==> s.threads[t].Idle?)
    && !s.crashed
  }

  // ---------------------------------------------------------------- the abstract queue

  /** The values in the queue: the data of every listed node but the first, the dummy. */
  function Contents<T>(s: State<T>): seq<T>
    requires s.list != [] && forall p :: p in s.list ==> p in s.nodes
  {
    seq(|s.list| - 1, k requires 0 <= k < |s.list| - 1 => s.nodes[s.list[k + 1]].data)
  }

  /** What a step does to the abstract queue: a winning link appends the caller's argument, a
      winning head swing removes the value that its caller will be given. */
  datatype Effect<T> = Silent | Appends(value: T) | Removes(value: T)

  function EffectOf<T>(s: State<T>, a: Action<T>): Effect<T>
    requires Enabled(s, a)
  {
    if a.Continue? && Accessed(s.threads[a.t]) <= s.nodes.Keys then
      match s.threads[a.t]
      case EnqLink(value, _, tail, next) =>
        if Bits(next) == Bits(s.nodes[tail.ptr].next) then Appends(value) else Silent
      case DeqSwing(head, _, data) =>
        if Bits(head) == Bits(s.head) then Removes(data) else Silent
      case _ => Silent
    else Silent
  }

  // ---------------------------------------------------------------- invariant

  /** `list` is the chain of `next` pointers from the head node to the first null. */
  ghost predicate Chain<T>(nodes: map<Ptr, Node<T>>, list: seq<Ptr>) {
    && list != []
    && (forall i :: 0 <= i < |list| ==> list[i] in nodes)
    && (forall i {:trigger nodes[list[i]].next} :: 0 <= i < |list| - 1 ==> nodes[list[i]].next.ptr == list[i + 1])
    && nodes[list[|list| - 1]].next.ptr == NULL
    && (forall i, j :: 0 <= i < j < |list| ==> list[i] != list[j])
  }

  ghost predicate ListInv<T>(s: State<T>) {
    && Chain(s.nodes, s.list)
    && s.head.ptr == s.list[0]
    && (s.tail.ptr == s.list[|s.list| - 1] || (|s.list| >= 2 && s.tail.ptr == s.list[|s.list| - 2]))
  }

  /** The node a thread owns: its own before linking, the old dummy after a winning head swing. */
  function Owned<T>(l: Local<T>): Ptr {
    match l
    case EnqData(_, node) => node
    case EnqInit(_, node) => node
    case EnqReadTail(_, node) => node
    case EnqReadNext(_, node, _) => node
    case EnqRecheck(_, node, _, _) => node
    case EnqLink(_, node, _, _) => node
    case EnqHelp(_, node, _, _) => node
    case DeqFree(node, _) => node
    case _ => NULL
  }

  /** Every node is in the pool, with another queue, in the list or with exactly one thread. */
  ghost predicate OwnerInv<T>(s: State<T>) {
    && NULL !in s.nodes
    && (forall p {:trigger s.nodes[p].next} ::
          p in s.nodes ==> s.nodes[p].next.ptr == NULL || s.nodes[p].next.ptr in s.nodes)
    && (forall p :: p in s.nodes ==> (s.nodes[p].owner == Listed <==> p in s.list))
    && (forall p :: p in s.nodes && s.nodes[p].owner.Held? ==> HolderHas(s, p, s.nodes[p].owner.thread))
    && (forall t :: 0 <= t < |s.threads| ==> HasOwn(s, s.threads[t], t))
  }

  ghost predicate HolderHas<T>(s: State<T>, p: Ptr, t: nat) {
    t < |s.threads| && Owned(s.threads[t]) == p
  }

  ghost predicate HasOwn<T>(s: State<T>, l: Local<T>, t: nat) {
    Owned(l) != NULL ==> Owned(l) in s.nodes && s.nodes[Owned(l)].owner == Held(t)
  }

  ghost predicate Valid<T>(s: State<T>, p: Stamped, cur: Stamped) {
    p.ptr in s.nodes && NotNewer(p, cur)
  }

  /** What a thread may rely on although its snapshots can be stale. */
  ghost predicate LocalInv<T>(s: State<T>, l: Local<T>) {
    match l
    case EnqData(_, node) => node in s.nodes
    case EnqInit(value, node) => node in s.nodes && s.nodes[node].data == value
    case EnqReadTail(value, node) => Prepared(s, value, node)
    case EnqReadNext(value, node, tail) => Prepared(s, value, node) && Valid(s, tail, s.tail)
    case EnqRecheck(value, node, tail, next) =>
      && Prepared(s, value, node)
      && Valid(s, tail, s.tail)
      && NotNewer(next, s.nodes[tail.ptr].next)
      && (next.ptr != NULL ==> NextOfTail(s, tail, next.ptr))
    case EnqLink(value, node, tail, next) =>
      && Prepared(s, value, node)
      && tail.ptr in s.nodes && next.ptr == NULL
      && NotNewer(next, s.nodes[tail.ptr].next)
      && (next == s.nodes[tail.ptr].next ==> tail == s.tail)
    case EnqHelp(value, node, tail, next) =>
      && Prepared(s, value, node)
      && Valid(s, tail, s.tail) && NextOfTail(s, tail, next.ptr)
    case EnqSwing(node, tail) => Valid(s, tail, s.tail) && NextOfTail(s, tail, node)
    case DeqReadTail(head) => Valid(s, head, s.head)
    case DeqReadNext(head, tail) =>
      && Valid(s, head, s.head) && Valid(s, tail, s.tail)
      && (head == s.head && head.ptr != tail.ptr ==> s.tail.ptr != head.ptr)
    case DeqHelp(tail, next) => Valid(s, tail, s.tail) && NextOfTail(s, tail, next.ptr)
    case DeqReadData(head, next) => Ahead(s, head, next)
    case DeqSwing(head, next, data) =>
      Ahead(s, head, next) && (head == s.head ==> s.nodes[next.ptr].data == data)
    case DeqFree(node, _) => node in s.nodes
    case _ => true
  }

  /** The thread's own node is filled in. */
  ghost predicate Prepared<T>(s: State<T>, value: T, node: Ptr) {
    node in s.nodes && s.nodes[node].data == value && s.nodes[node].next.ptr == NULL
  }

  /** Unless the tail has moved since, `next` is the node behind it. */
  ghost predicate NextOfTail<T>(s: State<T>, tail: Stamped, next: Ptr) {
    next in s.nodes && (tail == s.tail ==> tail.ptr in s.nodes && s.nodes[tail.ptr].next.ptr == next)
  }

  /** Unless the head has moved since, `next` is the node behind it and the tail is not on it. */
  ghost predicate Ahead<T>(s: State<T>, head: Stamped, next: Stamped) {
    && Valid(s, head, s.head) && next.ptr in s.nodes
    && (head == s.head ==> s.nodes[head.ptr].next == next && s.tail.ptr != head.ptr)
  }

  // reservation accounting

  function Uncounted<T>(l: Local<T>): nat {
    if l.EnqSwing? || l.EnqCount? then 1 else 0
  }

  function Reserved<T>(l: Local<T>): nat {
    if l.DeqReadHead? || l.DeqReadTail? || l.DeqReadNext? || l.DeqHelp? || l.DeqReadData? || l.DeqSwing?
    then 1 else 0
  }

  function Unrestored<T>(l: Local<T>): nat {
    if l.DeqRestore? then 1 else 0
  }

  /** The list length is `_size`, plus the enqueues linked but not counted yet, plus the dequeuers
      that hold a reservation, plus the failed dequeuers that have not given theirs back. */
  ghost predicate SizeInv<T>(s: State<T>) {
    && |s.list| - 1 == s.size + Sum(s.threads, Uncounted) + Sum(s.threads, Reserved) + Sum(s.threads, Unrestored)
    && s.size + Sum(s.threads, Unrestored) >= 0
  }

  ghost predicate Inv<T>(s: State<T>) {
    && !s.crashed
    && ListInv(s)
    && OwnerInv(s)
    && (forall t :: 0 <= t < |s.threads| ==> LocalInv(s, s.threads[t]))
    && SizeInv(s)
  }

  lemma InitInv<T>(s: State<T>)
    requires Init(s)
    ensures Inv(s) && Contents(s) == []
  {
    SumZero(s.threads, Uncounted);
    SumZero(s.threads, Reserved);
    SumZero(s.threads, Unrestored);
  }

  // ---------------------------------------------------------------- interference

  /** What every step guarantees to the threads that do not take it. */
  ghost predicate Evolves<T>(s: State<T>, s': State<T>, actor: int) {
    && s.nodes.Keys <= s'.nodes.Keys
    && (s'.tail == s.tail || s'.tail.ver > s.tail.ver)
    && (s'.head == s.head || s'.head.ver > s.head.ver)
    // a `next` field gets a new version whenever it is written
    && (forall p :: p in s.nodes ==>
          s'.nodes[p].next == s.nodes[p].next || s'.nodes[p].next.ver > s.nodes[p].next.ver)
    // a node held by another thread is left alone
    && (forall p :: p in s.nodes && s.nodes[p].owner.Held? && s.nodes[p].owner.thread != actor ==>
          s'.nodes[p] == s.nodes[p])
    // the link behind the tail or the head node is never rewritten
    && (s'.tail == s.tail && s.tail.ptr in s.nodes && s.nodes[s.tail.ptr].next.ptr != NULL ==>
          s'.nodes[s.tail.ptr].next == s.nodes[s.tail.ptr].next)
    && (s'.head == s.head && s.head.ptr in s.nodes && s.nodes[s.head.ptr].next.ptr != NULL ==>
          && s'.nodes[s.head.ptr].next == s.nodes[s.head.ptr].next
          && (s.nodes[s.head.ptr].next.ptr in s.nodes ==>
                s'.nodes[s.nodes[s.head.ptr].next.ptr].data == s.nodes[s.nodes[s.head.ptr].next.ptr].data))
    // the tail leaves neither the last node nor, backwards, towards the head node
    && ((s.tail.ptr in s.nodes && s.nodes[s.tail.ptr].next.ptr == NULL
         && s'.nodes[s.tail.ptr].next == s.nodes[s.tail.ptr].next) ==> s'.tail == s.tail)
    && (s'.head == s.head && s.tail.ptr != s.head.ptr ==> s'.tail.ptr != s.head.ptr)
  }

  lemma LocalInvStable<T>(s: State<T>, s': State<T>, actor: int, l: Local<T>)
    requires LocalInv(s, l) && Evolves(s, s', actor)
    requires s.tail.ptr in s.nodes && s.head.ptr in s.nodes && NULL !in s.nodes
    requires Owned(l) != NULL ==> Owned(l) in s.nodes && s'.nodes[Owned(l)] == s.nodes[Owned(l)]
    ensures LocalInv(s', l)
  {
  }

  /** The facts about the old state that stability of the other threads rests on. */
  ghost predicate Others<T>(s: State<T>) {
    && s.tail.ptr in s.nodes && s.head.ptr in s.nodes && NULL !in s.nodes
    && (forall u :: 0 <= u < |s.threads| ==> HasOwn(s, s.threads[u], u))
    && (forall u :: 0 <= u < |s.threads| ==> LocalInv(s, s.threads[u]))
  }

  lemma OthersOf<T>(s: State<T>)
    requires Inv(s)
    ensures Others(s)
  {
    hide LocalInv, HasOwn;
    assert s.tail.ptr in s.list && s.head.ptr in s.list;
  }

  lemma QuietEvolves<T>(s: State<T>, s': State<T>, t: nat)
    requires ListInv(s)
    requires s'.nodes == s.nodes && s'.list == s.list && s'.head == s.head && s'.tail == s.tail
    ensures Evolves(s, s', t) && ListInv(s')
  {
  }

  /** The step of one thread leaves every other thread's knowledge intact. */
  lemma OthersKeep<T>(s: State<T>, s': State<T>, t: nat, l: Local<T>)
    requires Others(s) && t < |s.threads| && s'.threads == s.threads[t := l]
    requires LocalInv(s', l) && Evolves(s, s', t)
    ensures forall u :: 0 <= u < |s'.threads| ==> LocalInv(s', s'.threads[u])
  {
    forall u: nat | u < |s'.threads| ensures LocalInv(s', s'.threads[u]) {
      if u != t {
        StaysStable(s, s', t, u);
      }
    }
  }

  lemma AllKeep<T>(s: State<T>, s': State<T>)
    requires Others(s) && s'.threads == s.threads && Evolves(s, s', -1)
    ensures forall u :: 0 <= u < |s'.threads| ==> LocalInv(s', s'.threads[u])
  {
    forall u: nat | u < |s'.threads| ensures LocalInv(s', s'.threads[u]) {
      StaysStable(s, s', -1, u);
    }
  }

  lemma StaysStable<T>(s: State<T>, s': State<T>, actor: int, u: nat)
    requires Others(s) && u < |s.threads| && u != actor && Evolves(s, s', actor)
    ensures LocalInv(s', s.threads[u])
  {
    assert HasOwn(s, s.threads[u], u);
    LocalInvStable(s, s', actor, s.threads[u]);
  }

  lemma SizeMoves<T>(s: State<T>, s': State<T>, t: nat, l: Local<T>)
    requires SizeInv(s) && t < |s.threads| && s'.threads == s.threads[t := l]
    requires |s'.list| - |s.list| ==
             s'.size - s.size
             + Uncounted(l) - Uncounted(s.threads[t])
             + Reserved(l) - Reserved(s.threads[t])
             + Unrestored(l) - Unrestored(s.threads[t])
    requires s'.size + Unrestored(l) >= s.size + Unrestored(s.threads[t])
             || s'.size + Unrestored(l) >= Unrestored(s.threads[t])
    ensures SizeInv(s')
  {
    SumUpdate(s.threads, t, l, Uncounted);
    SumUpdate(s.threads, t, l, Reserved);
    SumUpdate(s.threads, t, l, Unrestored);
    SumCovers(s.threads, t, Unrestored);
  }

  // ---------------------------------------------------------------- one lemma per kind of step

  /** Ownership does not move when the nodes stay and the actor owns what it owned before. */
  lemma OwnerSame<T>(s: State<T>, s': State<T>, t: nat, l: Local<T>)
    requires OwnerInv(s) && t < |s.threads| && s'.threads == s.threads[t := l]
    requires s'.nodes == s.nodes && s'.list == s.list && Owned(l) == Owned(s.threads[t])
    ensures OwnerInv(s')
  {
    assert HasOwn(s, s.threads[t], t);
    forall u: nat | u < |s'.threads| ensures HasOwn(s', s'.threads[u], u) {
      assert HasOwn(s, s.threads[u], u);
    }
    forall q | q in s'.nodes && s'.nodes[q].owner.Held? ensures HolderHas(s', q, s'.nodes[q].owner.thread) {
      assert HolderHas(s, q, s.nodes[q].owner.thread);
    }
  }

  lemma QuietKeepsInv<T>(s: State<T>, t: nat, l: Local<T>)
    requires Inv(s) && t < |s.threads|
    requires Owned(l) == Owned(s.threads[t])
    requires Uncounted(l) == Uncounted(s.threads[t])
    requires Reserved(l) == Reserved(s.threads[t])
    requires Unrestored(l) == Unrestored(s.threads[t])
    requires LocalInv(Goto(s, t, l), l)
    ensures Inv(Goto(s, t, l))
  {
    var s' := Goto(s, t, l);
    OwnerSame(s, s', t, l);
    SizeMoves(s, s', t, l);
    OthersKeep(s, s', t, l);
  }

  lemma ChainFrame<T>(nodes: map<Ptr, Node<T>>, nodes': map<Ptr, Node<T>>, list: seq<Ptr>)
    requires Chain(nodes, list)
    requires forall p :: p in list ==> p in nodes' && nodes'[p].next == nodes[p].next
    ensures Chain(nodes', list)
  {
    assert forall i :: 0 <= i < |list| ==> list[i] in list;
  }

  /** A write to a node outside the list neither breaks the chain nor what others rely on. */
  lemma UnlistedWrite<T>(s: State<T>, s': State<T>, actor: int, p: Ptr, n: Node<T>)
    requires ListInv(s) && s'.nodes == s.nodes[p := n] && p !in s.list
    requires s'.list == s.list && s'.head == s.head && s'.tail == s.tail
    requires p in s.nodes ==> n.next == s.nodes[p].next || n.next.ver > s.nodes[p].next.ver
    requires p in s.nodes && s.nodes[p].owner.Held? ==> s.nodes[p].owner.thread == actor
    ensures ListInv(s') && Evolves(s, s', actor)
  {
    assert forall q :: q in s.list ==> q in s.nodes;
    ChainFrame(s.nodes, s'.nodes, s.list);
    assert s.head.ptr in s.list && s.tail.ptr in s.list;
    assert s.nodes[s.head.ptr].next.ptr != NULL ==> s.nodes[s.head.ptr].next.ptr in s.list;
  }

  lemma OwnerOfPrivate<T>(s: State<T>, s': State<T>, t: nat, l: Local<T>, p: Ptr, n: Node<T>)
    requires OwnerInv(s) && t < |s.threads| && p in s.nodes && p !in s.list
    requires s'.threads == s.threads[t := l] && s'.nodes == s.nodes[p := n] && s'.list == s.list
    requires n.next.ptr == NULL || n.next.ptr in s.nodes
    requires s.nodes[p].owner == Held(t) || (Owned(s.threads[t]) == NULL && !s.nodes[p].owner.Held?)
    requires if Owned(l) == NULL then n.owner == Pool else Owned(l) == p && n.owner == Held(t)
    ensures OwnerInv(s')
  {
    assert HasOwn(s, s.threads[t], t);
    assert s.nodes[p].owner.Held? ==> HolderHas(s, p, s.nodes[p].owner.thread);
    forall u: nat | u < |s'.threads| ensures HasOwn(s', s'.threads[u], u) {
      assert HasOwn(s, s.threads[u], u);
    }
    forall q | q in s'.nodes && s'.nodes[q].owner.Held? ensures HolderHas(s', q, s'.nodes[q].owner.thread) {
      assert q != p ==> HolderHas(s, q, s.nodes[q].owner.thread);
    }
  }

  /** The actor writes a node it owns or takes from the pool. */
  lemma PrivateWriteKeepsInv<T>(s: State<T>, t: nat, l: Local<T>, p: Ptr, n: Node<T>)
    requires Inv(s) && t < |s.threads| && p in s.nodes && p !in s.list
    requires n.next == s.nodes[p].next || (n.next.ver > s.nodes[p].next.ver && n.next.ptr == NULL)
    requires s.nodes[p].owner == Held(t) || (Owned(s.threads[t]) == NULL && !s.nodes[p].owner.Held?)
    requires if Owned(l) == NULL then n.owner == Pool else Owned(l) == p && n.owner == Held(t)
    requires Uncounted(l) == Uncounted(s.threads[t])
    requires Reserved(l) == Reserved(s.threads[t])
    requires Unrestored(l) == Unrestored(s.threads[t])
    requires LocalInv(Goto(Put(s, p, n), t, l), l)
    ensures Inv(Goto(Put(s, p, n), t, l))
  {
    var s' := Goto(Put(s, p, n), t, l);
    UnlistedWrite(s, s', t, p, n);
    OwnerOfPrivate(s, s', t, l, p, n);
    SizeMoves(s, s', t, l);
    OthersKeep(s, s', t, l);
  }

  lemma OwnerOutside<T>(s: State<T>, s': State<T>, p: Ptr, n: Node<T>)
    requires OwnerInv(s) && p != NULL && p !in s.list
    requires s'.threads == s.threads && s'.nodes == s.nodes[p := n] && s'.list == s.list
    requires p in s.nodes ==> s.nodes[p].owner == Pool || s.nodes[p].owner == Foreign
    requires n.next.ptr == NULL || n.next.ptr in s.nodes
    requires n.owner == Pool || n.owner == Foreign
    ensures OwnerInv(s')
  {
    forall u: nat | u < |s'.threads| ensures HasOwn(s', s'.threads[u], u) {
      assert HasOwn(s, s.threads[u], u);
    }
    forall q | q in s'.nodes && s'.nodes[q].owner.Held? ensures HolderHas(s', q, s'.nodes[q].owner.thread) {
      assert HolderHas(s, q, s.nodes[q].owner.thread);
    }
  }

  /** A step of the node pool or of another queue on a node that is in neither a list nor a thread. */
  lemma OutsideWriteKeepsInv<T>(s: State<T>, p: Ptr, n: Node<T>)
    requires Inv(s) && p != NULL
    requires p in s.nodes ==> s.nodes[p].owner == Pool || s.nodes[p].owner == Foreign
    requires p in s.nodes ==> n.next == s.nodes[p].next || n.next.ver > s.nodes[p].next.ver
    requires n.next.ptr == NULL || n.next.ptr in s.nodes
    requires n.owner == Pool || n.owner == Foreign
    ensures Inv(Put(s, p, n))
  {
    var s' := Put(s, p, n);
    assert p !in s.list;
    UnlistedWrite(s, s', -1, p, n);
    OwnerOutside(s, s', p, n);
    AllKeep(s, s');
  }

  lemma CounterKeepsInv<T>(s: State<T>, t: nat)
    requires Inv(s) && t < |s.threads| && (s.threads[t].EnqCount? || s.threads[t].DeqRestore?)
    ensures Inv(Goto(s.(size := s.size + 1), t, Idle))
  {
    hide ListInv, OwnerInv, Evolves, Others;
    var s' := Goto(s.(size := s.size + 1), t, Idle);
    OthersOf(s);
    QuietEvolves(s, s', t);
    OwnerSame(s, s', t, Idle);
    SizeMoves(s, s', t, Idle);
    OthersKeep(s, s', t, Idle);
  }

  lemma StartDequeueKeepsInv<T>(s: State<T>, t: nat)
    requires Inv(s) && Enabled(s, StartDequeue(t))
    ensures Inv(Apply(s, StartDequeue(t)))
  {
    hide ListInv, OwnerInv, Evolves, Others;
    var s' := Apply(s, StartDequeue(t));
    var l := s'.threads[t];
    OthersOf(s);
    QuietEvolves(s, s', t);
    OwnerSame(s, s', t, l);
    SizeMoves(s, s', t, l);
    OthersKeep(s, s', t, l);
  }

  /** Moving the tail one node on, by its owner or by a helper. */
  lemma SwingTailKeepsInv<T>(s: State<T>, t: nat, l: Local<T>, tail: Stamped, ptr: Ptr)
    requires Inv(s) && t < |s.threads|
    requires Valid(s, tail, s.tail) && NextOfTail(s, tail, ptr) && InWindow(tail, s.tail)
    requires Owned(l) == Owned(s.threads[t])
    requires Uncounted(l) == Uncounted(s.threads[t])
    requires Reserved(l) == Reserved(s.threads[t])
    requires Unrestored(l) == Unrestored(s.threads[t])
    requires LocalInv(Goto(SwingTail(s, tail, ptr), t, l), l)
    ensures Inv(Goto(SwingTail(s, tail, ptr), t, l))
  {
    CasMeansUnchanged(tail, s.tail);
    var s' := Goto(SwingTail(s, tail, ptr), t, l);
    if tail == s.tail {
      TailMoves(s, s', t);
      OwnerSame(s, s', t, l);
      SizeMoves(s, s', t, l);
      OthersKeep(s, s', t, l);
    } else {
      QuietKeepsInv(s, t, l);
    }
  }

  lemma TailMoves<T>(s: State<T>, s': State<T>, actor: int)
    requires ListInv(s) && s.tail.ptr in s.nodes && s.nodes[s.tail.ptr].next.ptr != NULL
    requires s'.nodes == s.nodes && s'.list == s.list && s'.head == s.head
    requires s'.tail == Rewrite(s.tail, s.nodes[s.tail.ptr].next.ptr)
    ensures ListInv(s') && Evolves(s, s', actor)
  {
    var n := |s.list|;
    assert s.tail.ptr == s.list[n - 2];
    assert s.nodes[s.list[n - 2]].next.ptr == s.list[n - 1];
  }

  lemma LinkKeepsInv<T>(s: State<T>, t: nat, node: Ptr, tail: Stamped, next: Stamped)
    requires Inv(s) && t < |s.threads| && s.threads[t].EnqLink? && s.threads[t].node == node
    requires tail == s.tail && tail.ptr in s.nodes && next == s.nodes[tail.ptr].next && next.ptr == NULL
    requires node in s.nodes && s.nodes[node].owner == Held(t) && s.nodes[node].next.ptr == NULL
    ensures Inv(Goto(Link(s, node, tail, next), t, EnqSwing(node, tail)))
  {
    hide ListInv, OwnerInv, Evolves, Others;
    var l := EnqSwing(node, tail);
    var s' := Goto(Link(s, node, tail, next), t, l);
    OthersOf(s);
    TailIsListed(s);
    TailIsLast(s);
    HeldIsNotListed(s, node);
    LinkExtends(s, s', node);
    LinkEvolves(s, s', t, node);
    OwnerOfLinked(s, s', t, node);
    SizeMoves(s, s', t, l);
    OthersKeep(s, s', t, l);
  }

  lemma TailIsListed<T>(s: State<T>)
    requires ListInv(s) && OwnerInv(s)
    ensures s.tail.ptr in s.list && s.tail.ptr in s.nodes && s.nodes[s.tail.ptr].owner == Listed
    ensures NULL !in s.nodes && s.list != []
  {
  }

  lemma HeldIsNotListed<T>(s: State<T>, node: Ptr)
    requires OwnerInv(s) && node in s.nodes && s.nodes[node].owner.Held?
    ensures node !in s.list
  {
  }

  /** A null link behind the tail node means that the tail node is the last one. */
  lemma TailIsLast<T>(s: State<T>)
    requires ListInv(s) && s.tail.ptr in s.nodes && NULL !in s.nodes
    ensures s.nodes[s.tail.ptr].next.ptr == NULL <==> s.tail.ptr == s.list[|s.list| - 1]
  {
    if s.tail.ptr != s.list[|s.list| - 1] {
      assert s.nodes[s.list[|s.list| - 2]].next.ptr == s.list[|s.list| - 1];
    }
  }

  ghost predicate IsLinked<T>(s: State<T>, s': State<T>, node: Ptr) {
    && s.tail.ptr in s.nodes && node in s.nodes
    && s'.nodes == s.nodes[s.tail.ptr := s.nodes[s.tail.ptr].(next := Rewrite(s.nodes[s.tail.ptr].next, node))]
                           [node := s.nodes[node].(owner := Listed)]
    && s'.list == s.list + [node] && s'.head == s.head && s'.tail == s.tail
  }

  lemma LinkExtends<T>(s: State<T>, s': State<T>, node: Ptr)
    requires ListInv(s) && IsLinked(s, s', node)
    requires s.tail.ptr == s.list[|s.list| - 1]
    requires node !in s.list && node != NULL && s.nodes[node].next.ptr == NULL
    ensures ListInv(s')
  {
    var n := |s.list|;
    forall i | 0 <= i < n ensures s'.list[i] == s.list[i] && s.list[i] in s.list && s'.list[i] in s'.nodes {
    }
    assert s'.list[n] == node;
    forall i | 0 <= i < n ensures s'.nodes[s'.list[i]].next.ptr == s'.list[i + 1] {
      if i < n - 1 {
        assert s.nodes[s.list[i]].next.ptr == s.list[i + 1];
        assert s.list[i] != s.list[n - 1];
      }
    }
  }

  lemma LinkEvolves<T>(s: State<T>, s': State<T>, t: nat, node: Ptr)
    requires ListInv(s) && IsLinked(s, s', node)
    requires s.nodes[s.tail.ptr].next.ptr == NULL && s.tail.ptr != node && s.nodes[s.tail.ptr].owner == Listed
    requires s.nodes[node].owner == Held(t)
    ensures Evolves(s, s', t)
  {
    assert s.head.ptr in s.nodes;
  }

  lemma OwnerOfLinked<T>(s: State<T>, s': State<T>, t: nat, node: Ptr)
    requires OwnerInv(s) && t < |s.threads| && s.threads[t].EnqLink? && s.threads[t].node == node
    requires node in s.nodes && s.tail.ptr in s.list && s.tail.ptr in s.nodes && s.nodes[node].owner == Held(t)
    requires s'.threads == s.threads[t := EnqSwing(node, s.tail)]
    requires s'.nodes == s.nodes[s.tail.ptr := s.nodes[s.tail.ptr].(next := Rewrite(s.nodes[s.tail.ptr].next, node))]
                                [node := s.nodes[node].(owner := Listed)]
    requires s'.list == s.list + [node]
    ensures OwnerInv(s')
  {
    forall u: nat | u < |s'.threads| ensures HasOwn(s', s'.threads[u], u) {
      assert HasOwn(s, s.threads[u], u);
    }
    forall q | q in s'.nodes && s'.nodes[q].owner.Held? ensures HolderHas(s', q, s'.nodes[q].owner.thread) {
      assert HolderHas(s, q, s.nodes[q].owner.thread);
    }
  }

  lemma TakeHeadKeepsInv<T>(s: State<T>, t: nat, head: Stamped, next: Ptr, data: T)
    requires Inv(s) && t < |s.threads| && s.threads[t].DeqSwing?
    requires head == s.head && head.ptr in s.nodes && s.nodes[head.ptr].next.ptr == next != NULL
    requires s.tail.ptr != head.ptr
    ensures Inv(Goto(TakeHead(s, t, head, next), t, DeqFree(head.ptr, data)))
  {
    hide ListInv, OwnerInv, Evolves, Others;
    var l := DeqFree(head.ptr, data);
    var s' := Goto(TakeHead(s, t, head, next), t, l);
    OthersOf(s);
    HeadIsListed(s);
    HeadMoves(s, s', t);
    OwnerOfTaken(s, s', t, data);
    SizeMoves(s, s', t, l);
    OthersKeep(s, s', t, l);
  }

  lemma HeadIsListed<T>(s: State<T>)
    requires ListInv(s) && OwnerInv(s)
    ensures s.head.ptr in s.list && s.head.ptr in s.nodes && s.nodes[s.head.ptr].owner == Listed
  {
  }

  lemma HeadMoves<T>(s: State<T>, s': State<T>, t: nat)
    requires ListInv(s) && s.tail.ptr != s.head.ptr && s.nodes[s.head.ptr].next.ptr != NULL
    requires s.nodes[s.head.ptr].owner == Listed
    requires s'.nodes == s.nodes[s.head.ptr := s.nodes[s.head.ptr].(owner := Held(t))]
    requires s'.list == s.list[1..] && s'.head == Rewrite(s.head, s.nodes[s.head.ptr].next.ptr) && s'.tail == s.tail
    ensures ListInv(s') && Evolves(s, s', t)
  {
    assert |s.list| >= 2;
    assert s.nodes[s.list[0]].next.ptr == s.list[1];
    assert forall i :: 0 <= i < |s'.list| ==> s'.list[i] == s.list[i + 1];
    assert Chain(s'.nodes, s'.list);
  }

  lemma OwnerOfTaken<T>(s: State<T>, s': State<T>, t: nat, data: T)
    requires ListInv(s) && OwnerInv(s) && t < |s.threads| && Owned(s.threads[t]) == NULL
    requires s'.threads == s.threads[t := DeqFree(s.head.ptr, data)]
    requires s'.nodes == s.nodes[s.head.ptr := s.nodes[s.head.ptr].(owner := Held(t))]
    requires s'.list == s.list[1..]
    ensures OwnerInv(s')
  {
    var h := s.head.ptr;
    forall u: nat | u < |s'.threads| ensures HasOwn(s', s'.threads[u], u) {
      assert HasOwn(s, s.threads[u], u);
    }
    forall q | q in s'.nodes && s'.nodes[q].owner.Held? ensures HolderHas(s', q, s'.nodes[q].owner.thread) {
      assert q != h ==> HolderHas(s, q, s.nodes[q].owner.thread);
    }
    forall q | q in s'.nodes ensures s'.nodes[q].owner == Listed <==> q in s'.list {
      assert s.list == [h] + s'.list;
      assert h !in s'.list;
    }
  }

  // ---------------------------------------------------------------- every step keeps the invariant

  lemma PrepareKeepsInv<T>(s: State<T>, t: nat)
    requires Inv(s) && t < |s.threads| && InTime(s, s.threads[t])
    requires s.threads[t].EnqData? || s.threads[t].EnqInit?
    ensures Accessed(s.threads[t]) <= s.nodes.Keys && Inv(Step(s, t))
  {
    var l := s.threads[t];
    assert LocalInv(s, l) && HasOwn(s, l, t);
    match l
    case EnqData(value, node) =>
      PrivateWriteKeepsInv(s, t, EnqInit(value, node), node, s.nodes[node].(data := value));
    case EnqInit(value, node) =>
      PrivateWriteKeepsInv(s, t, EnqReadTail(value, node), node,
                           s.nodes[node].(next := Rewrite(s.nodes[node].next, NULL)));
  }

  lemma EnqReadKeepsInv<T>(s: State<T>, t: nat)
    requires Inv(s) && t < |s.threads| && InTime(s, s.threads[t])
    requires s.threads[t].EnqReadTail? || s.threads[t].EnqReadNext?
    ensures Accessed(s.threads[t]) <= s.nodes.Keys && Inv(Step(s, t))
  {
    var l := s.threads[t];
    assert LocalInv(s, l) && HasOwn(s, l, t);
    match l
    case EnqReadTail(value, node) => QuietKeepsInv(s, t, EnqReadNext(value, node, s.tail));
    case EnqReadNext(value, node, tail) =>
      QuietKeepsInv(s, t, EnqRecheck(value, node, tail, s.nodes[tail.ptr].next));
  }

  lemma RecheckKeepsInv<T>(s: State<T>, t: nat)
    requires Inv(s) && t < |s.threads| && InTime(s, s.threads[t])
    requires s.threads[t].EnqRecheck?
    ensures Accessed(s.threads[t]) <= s.nodes.Keys && Inv(Step(s, t))
  {
    var l := s.threads[t];
    assert LocalInv(s, l) && HasOwn(s, l, t);
    CasMeansUnchanged(l.tail, s.tail);
    QuietKeepsInv(s, t, Step(s, t).threads[t]);
  }

  lemma LinkStepKeepsInv<T>(s: State<T>, t: nat)
    requires Inv(s) && t < |s.threads| && InTime(s, s.threads[t])
    requires s.threads[t].EnqLink?
    ensures Accessed(s.threads[t]) <= s.nodes.Keys && Inv(Step(s, t))
  {
    var l := s.threads[t];
    assert LocalInv(s, l) && HasOwn(s, l, t);
    CasMeansUnchanged(l.next, s.nodes[l.tail.ptr].next);
    if l.next == s.nodes[l.tail.ptr].next {
      LinkKeepsInv(s, t, l.node, l.tail, l.next);
    } else {
      QuietKeepsInv(s, t, EnqReadTail(l.value, l.node));
    }
  }

  lemma TailStepKeepsInv<T>(s: State<T>, t: nat)
    requires Inv(s) && t < |s.threads| && InTime(s, s.threads[t])
    requires s.threads[t].EnqHelp? || s.threads[t].EnqSwing?
    ensures Accessed(s.threads[t]) <= s.nodes.Keys && Inv(Step(s, t))
  {
    hide ListInv, SizeInv;
    var l := s.threads[t];
    assert LocalInv(s, l) && HasOwn(s, l, t);
    match l
    case EnqHelp(value, node, tail, next) =>
      SwingTailKeepsInv(s, t, EnqReadTail(value, node), tail, next.ptr);
    case EnqSwing(node, tail) =>
      SwingTailKeepsInv(s, t, EnqCount, tail, node);
  }

  lemma CountStep<T>(s: State<T>, t: nat)
    requires t < |s.threads| && (s.threads[t].EnqCount? || s.threads[t].DeqRestore?)
    ensures Accessed(s.threads[t]) == {} && Step(s, t) == Goto(s.(size := s.size + 1), t, Idle)
  {
  }

  lemma CountStepKeepsInv<T>(s: State<T>, t: nat)
    requires Inv(s) && t < |s.threads| && InTime(s, s.threads[t])
    requires s.threads[t].EnqCount? || s.threads[t].DeqRestore?
    ensures Accessed(s.threads[t]) <= s.nodes.Keys && Inv(Step(s, t))
  {
    hide Inv, Step, Accessed, Goto;
    CountStep(s, t);
    CounterKeepsInv(s, t);
  }

  lemma DeqReadKeepsInv<T>(s: State<T>, t: nat)
    requires Inv(s) && t < |s.threads| && InTime(s, s.threads[t])
    requires s.threads[t].DeqReadHead? || s.threads[t].DeqReadTail?
    ensures Accessed(s.threads[t]) <= s.nodes.Keys && Inv(Step(s, t))
  {
    var l := s.threads[t];
    assert LocalInv(s, l) && HasOwn(s, l, t);
    match l
    case DeqReadHead => QuietKeepsInv(s, t, DeqReadTail(s.head));
    case DeqReadTail(head) => QuietKeepsInv(s, t, DeqReadNext(head, s.tail));
  }

  lemma DeqNextKeepsInv<T>(s: State<T>, t: nat)
    requires Inv(s) && t < |s.threads| && InTime(s, s.threads[t])
    requires s.threads[t].DeqReadNext?
    ensures Accessed(s.threads[t]) <= s.nodes.Keys && Inv(Step(s, t))
  {
    var l := s.threads[t];
    assert LocalInv(s, l) && HasOwn(s, l, t);
    QuietKeepsInv(s, t, Step(s, t).threads[t]);
  }

  lemma DeqHelpKeepsInv<T>(s: State<T>, t: nat)
    requires Inv(s) && t < |s.threads| && InTime(s, s.threads[t])
    requires s.threads[t].DeqHelp?
    ensures Accessed(s.threads[t]) <= s.nodes.Keys && Inv(Step(s, t))
  {
    var l := s.threads[t];
    assert LocalInv(s, l) && HasOwn(s, l, t);
    SwingTailKeepsInv(s, t, DeqReadHead, l.tail, l.next.ptr);
  }

  lemma DeqDataKeepsInv<T>(s: State<T>, t: nat)
    requires Inv(s) && t < |s.threads| && InTime(s, s.threads[t])
    requires s.threads[t].DeqReadData?
    ensures Accessed(s.threads[t]) <= s.nodes.Keys && Inv(Step(s, t))
  {
    var l := s.threads[t];
    assert LocalInv(s, l) && HasOwn(s, l, t);
    QuietKeepsInv(s, t, DeqSwing(l.head, l.next, s.nodes[l.next.ptr].data));
  }

  lemma HeadStepKeepsInv<T>(s: State<T>, t: nat)
    requires Inv(s) && t < |s.threads| && InTime(s, s.threads[t])
    requires s.threads[t].DeqSwing?
    ensures Accessed(s.threads[t]) <= s.nodes.Keys && Inv(Step(s, t))
  {
    var l := s.threads[t];
    assert LocalInv(s, l) && HasOwn(s, l, t);
    CasMeansUnchanged(l.head, s.head);
    if l.head == s.head {
      TakeHeadKeepsInv(s, t, l.head, l.next.ptr, l.data);
    } else {
      QuietKeepsInv(s, t, DeqReadHead);
    }
  }

  lemma FreeKeepsInv<T>(s: State<T>, t: nat)
    requires Inv(s) && t < |s.threads| && InTime(s, s.threads[t])
    requires s.threads[t].DeqFree?
    ensures Accessed(s.threads[t]) <= s.nodes.Keys && Inv(Step(s, t))
  {
    var l := s.threads[t];
    assert LocalInv(s, l) && HasOwn(s, l, t);
    PrivateWriteKeepsInv(s, t, Idle, l.node, s.nodes[l.node].(owner := Pool));
  }

}
