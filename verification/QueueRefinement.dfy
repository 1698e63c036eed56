/** What the state machine of LockFreeQueue guarantees to its users: under every interleaving it is
    a FIFO queue, and `_size` accounts for every element and every reservation. */
module QueueRefinement {
  import opened TaggedPointer
  import opened Tallying
  import opened LockFreeQueue

  // ---------------------------------------------------------------- single steps

  lemma ContinueKeepsInv<T>(s: State<T>, t: nat)
    requires Inv(s) && Enabled(s, Continue(t))
    ensures Accessed(s.threads[t]) <= s.nodes.Keys && Inv(Step(s, t))
  {
    match s.threads[t]
    case EnqData(_, _) => PrepareKeepsInv(s, t);
    case EnqInit(_, _) => PrepareKeepsInv(s, t);
    case EnqReadTail(_, _) => EnqReadKeepsInv(s, t);
    case EnqReadNext(_, _, _) => EnqReadKeepsInv(s, t);
    case EnqRecheck(_, _, _, _) => RecheckKeepsInv(s, t);
    case EnqLink(_, _, _, _) => LinkStepKeepsInv(s, t);
    case EnqHelp(_, _, _, _) => TailStepKeepsInv(s, t);
    case EnqSwing(_, _) => TailStepKeepsInv(s, t);
    case EnqCount => CountStepKeepsInv(s, t);
    case DeqRestore => CountStepKeepsInv(s, t);
    case DeqReadHead => DeqReadKeepsInv(s, t);
    case DeqReadTail(_) => DeqReadKeepsInv(s, t);
    case DeqReadNext(_, _) => DeqNextKeepsInv(s, t);
    case DeqHelp(_, _) => DeqHelpKeepsInv(s, t);
    case DeqReadData(_, _) => DeqDataKeepsInv(s, t);
    case DeqSwing(_, _, _) => HeadStepKeepsInv(s, t);
    case DeqFree(_, _) => FreeKeepsInv(s, t);
  }

  lemma StartEnqueueKeepsInv<T>(s: State<T>, t: nat, value: T, node: Ptr)
    requires Inv(s) && Enabled(s, StartEnqueue(t, value, node))
    ensures Inv(Apply(s, StartEnqueue(t, value, node)))
  {
    PrivateWriteKeepsInv(s, t, EnqData(value, node), node, s.nodes[node].(owner := Held(t)));
  }

  lemma OtherKeepsInv<T>(s: State<T>, a: Action<T>)
    requires Inv(s) && Enabled(s, a) && !a.StartEnqueue? && !a.StartDequeue? && !a.Continue?
    ensures Inv(Apply(s, a))
  {
    var p := a.node;
    assert p in s.nodes ==> s.nodes[p].next.ptr == NULL || s.nodes[p].next.ptr in s.nodes;
    OutsideWriteKeepsInv(s, p, Apply(s, a).nodes[p]);
  }

  /** No step, by any thread, with however stale snapshots, breaks the queue or touches memory
      outside the nodes. */
  lemma ApplyKeepsInv<T>(s: State<T>, a: Action<T>)
    requires Inv(s) && Enabled(s, a)
    ensures Inv(Apply(s, a))
  {
    match a
    case StartEnqueue(t, value, node) => StartEnqueueKeepsInv(s, t, value, node);
    case StartDequeue(t) => StartDequeueKeepsInv(s, t);
    case Continue(t) => ContinueKeepsInv(s, t);
    case _ => OtherKeepsInv(s, a);
  }

  /** The data in listed nodes decides the contents. */
  lemma SameContents<T>(s: State<T>, s': State<T>)
    requires ListInv(s) && s'.list == s.list
    requires forall p :: p in s.list ==> p in s'.nodes && s'.nodes[p].data == s.nodes[p].data
    ensures Contents(s') == Contents(s)
  {
    assert forall k :: 0 <= k < |s.list| ==> s.list[k] in s.list;
  }

  lemma AppendRefines<T>(s: State<T>, s': State<T>, node: Ptr)
    requires ListInv(s) && ListInv(s') && s'.list == s.list + [node]
    requires forall p :: p in s.list || p == node ==>
             p in s.nodes && p in s'.nodes && s'.nodes[p].data == s.nodes[p].data
    ensures Contents(s') == Contents(s) + [s.nodes[node].data]
  {
    assert forall k :: 0 <= k < |s.list| ==> s.list[k] in s.list;
  }

  lemma RemoveRefines<T>(s: State<T>, s': State<T>)
    requires ListInv(s) && ListInv(s') && s'.list == s.list[1..]
    requires forall p :: p in s.list ==> p in s.nodes && p in s'.nodes && s'.nodes[p].data == s.nodes[p].data
    ensures s.list[1] == s.nodes[s.list[0]].next.ptr
    ensures Contents(s) == [s.nodes[s.list[1]].data] + Contents(s')
  {
    assert |s.list| >= 2;
    assert s.nodes[s.list[0]].next.ptr == s.list[1];
    hide ListInv;
    RestOfContents(s, s');
  }

  lemma RestOfContents<T>(s: State<T>, s': State<T>)
    requires |s.list| >= 2 && s'.list == s.list[1..]
    requires forall p :: p in s.list ==> p in s.nodes && p in s'.nodes && s'.nodes[p].data == s.nodes[p].data
    ensures Contents(s) == [s.nodes[s.list[1]].data] + Contents(s')
  {
    forall k | 0 <= k < |s.list| - 2 ensures Contents(s)[k + 1] == Contents(s')[k] {
      assert s'.list[k + 1] == s.list[k + 2] && s.list[k + 2] in s.list;
    }
  }

  /** Only the two winning CASes change the list. */
  lemma SilentKeepsList<T>(s: State<T>, a: Action<T>)
    requires Enabled(s, a) && EffectOf(s, a).Silent?
    ensures Apply(s, a).list == s.list
  {
  }

  lemma StepKeepsData<T>(s: State<T>, t: nat, p: Ptr)
    requires t < |s.threads| && Accessed(s.threads[t]) <= s.nodes.Keys && p in s.nodes
    ensures p in Step(s, t).nodes
    ensures Step(s, t).nodes[p].data == s.nodes[p].data || (s.threads[t].EnqData? && p == s.threads[t].node)
  {
  }

  /** No step changes the data of a listed node. */
  lemma ListedDataStays<T>(s: State<T>, a: Action<T>)
    requires ListInv(s) && OwnerInv(s) && Enabled(s, a)
    ensures forall p :: p in s.list ==> p in Apply(s, a).nodes && Apply(s, a).nodes[p].data == s.nodes[p].data
  {
    forall p | p in s.list ensures p in Apply(s, a).nodes && Apply(s, a).nodes[p].data == s.nodes[p].data {
      assert p in s.nodes;
      if a.Continue? && Accessed(s.threads[a.t]) <= s.nodes.Keys {
        assert HasOwn(s, s.threads[a.t], a.t);
        StepKeepsData(s, a.t, p);
      }
    }
  }

  lemma WinningLink<T>(s: State<T>, t: nat)
    requires Inv(s) && Enabled(s, Continue(t)) && EffectOf(s, Continue(t)).Appends?
    ensures s.threads[t].EnqLink? && s.threads[t].node in s.nodes
    ensures Apply(s, Continue(t)).list == s.list + [s.threads[t].node]
    ensures s.nodes[s.threads[t].node].data == EffectOf(s, Continue(t)).value
    ensures s.threads[t].node in Apply(s, Continue(t)).nodes
    ensures Apply(s, Continue(t)).nodes[s.threads[t].node].data == EffectOf(s, Continue(t)).value
    ensures s.threads[t].tail.ptr == s.list[|s.list| - 1]
    ensures Apply(s, Continue(t)).nodes[s.threads[t].tail.ptr].next.ptr == s.threads[t].node
  {
    assert LocalInv(s, s.threads[t]);
    CasMeansUnchanged(s.threads[t].next, s.nodes[s.threads[t].tail.ptr].next);
    TailIsLast(s);
  }

  lemma WinningHead<T>(s: State<T>, t: nat)
    requires Inv(s) && Enabled(s, Continue(t)) && EffectOf(s, Continue(t)).Removes?
    ensures s.threads[t].DeqSwing? && s.head.ptr in s.nodes
    ensures s.nodes[s.head.ptr].next == s.threads[t].next && s.threads[t].next.ptr in s.nodes
    ensures s.nodes[s.threads[t].next.ptr].data == EffectOf(s, Continue(t)).value
    ensures Apply(s, Continue(t)).list == s.list[1..]
    ensures Apply(s, Continue(t)).threads[t] == DeqFree(s.head.ptr, EffectOf(s, Continue(t)).value)
  {
    assert LocalInv(s, s.threads[t]);
    CasMeansUnchanged(s.threads[t].head, s.head);
  }

  /** Each step is one atomic queue operation: a winning link appends exactly its caller's argument,
      a winning head swing removes the first value and that is the value its caller returns, and
      nothing else changes the queue. */
  lemma StepRefines<T>(s: State<T>, a: Action<T>)
    requires Inv(s) && Enabled(s, a)
    ensures Inv(Apply(s, a))
    ensures match EffectOf(s, a)
            case Silent => Contents(Apply(s, a)) == Contents(s)
            case Appends(value) => Contents(Apply(s, a)) == Contents(s) + [value]
            case Removes(value) =>
              && Contents(s) == [value] + Contents(Apply(s, a))
              && Apply(s, a).threads[a.t] == DeqFree(s.head.ptr, value)
  {
    ApplyKeepsInv(s, a);
    ListedDataStays(s, a);
    var s' := Apply(s, a);
    match EffectOf(s, a)
    case Silent =>
      SilentKeepsList(s, a);
      SameContents(s, s');
    case Appends(value) =>
      WinningLink(s, a.t);
      AppendRefines(s, s', s.threads[a.t].node);
    case Removes(value) =>
      WinningHead(s, a.t);
      RemoveRefines(s, s');
  }

  // ---------------------------------------------------------------- whole runs

  predicate Legal<T>(s: State<T>, acts: seq<Action<T>>)
    decreases |acts|
  {
    acts == [] || (Enabled(s, acts[0]) && Legal(Apply(s, acts[0]), acts[1..]))
  }

  function Run<T>(s: State<T>, acts: seq<Action<T>>): State<T>
    requires Legal(s, acts)
    decreases |acts|
  {
    if acts == [] then s else Run(Apply(s, acts[0]), acts[1..])
  }

  function StepAppends<T>(s: State<T>, a: Action<T>): seq<T>
    requires Enabled(s, a)
  {
    match EffectOf(s, a) case Appends(v) => [v] case _ => []
  }

  function StepRemoves<T>(s: State<T>, a: Action<T>): seq<T>
    requires Enabled(s, a)
  {
    match EffectOf(s, a) case Removes(v) => [v] case _ => []
  }

  /** The values linked during a run, in the order of the winning CASes. */
  function Appended<T>(s: State<T>, acts: seq<Action<T>>): seq<T>
    requires Legal(s, acts)
    decreases |acts|
  {
    if acts == [] then [] else StepAppends(s, acts[0]) + Appended(Apply(s, acts[0]), acts[1..])
  }

  function Removed<T>(s: State<T>, acts: seq<Action<T>>): seq<T>
    requires Legal(s, acts)
    decreases |acts|
  {
    if acts == [] then [] else StepRemoves(s, acts[0]) + Removed(Apply(s, acts[0]), acts[1..])
  }

  lemma StepConserves<T>(s: State<T>, a: Action<T>)
    requires Inv(s) && Enabled(s, a)
    ensures Inv(Apply(s, a))
    ensures Contents(s) + StepAppends(s, a) == StepRemoves(s, a) + Contents(Apply(s, a))
  {
    StepRefines(s, a);
  }

  lemma Splice<T>(c: seq<T>, a: seq<T>, r: seq<T>, c': seq<T>, restA: seq<T>, restR: seq<T>, last: seq<T>)
    requires c + a == r + c' && c' + restA == restR + last
    ensures c + (a + restA) == (r + restR) + last
  {
    calc {
      c + (a + restA);
      (c + a) + restA;
      r + (c' + restA);
      (r + restR) + last;
    }
  }

  lemma {:induction false} RunConserves<T>(s: State<T>, acts: seq<Action<T>>)
    requires Inv(s) && Legal(s, acts)
    ensures Inv(Run(s, acts))
    ensures Contents(s) + Appended(s, acts) == Removed(s, acts) + Contents(Run(s, acts))
    decreases |acts|
  {
    if acts != [] {
      var s' := Apply(s, acts[0]);
      StepConserves(s, acts[0]);
      RunConserves(s', acts[1..]);
      Splice(Contents(s), StepAppends(s, acts[0]), StepRemoves(s, acts[0]), Contents(s'),
             Appended(s', acts[1..]), Removed(s', acts[1..]), Contents(Run(s, acts)));
    }
  }

  /** First in, first out: in every run from a new queue, what was removed so far followed by what
      is still queued is exactly what was appended, in order. */
  lemma FifoTheorem<T>(s: State<T>, acts: seq<Action<T>>)
    requires Init(s) && Legal(s, acts)
    ensures Inv(Run(s, acts))
    ensures Appended(s, acts) == Removed(s, acts) + Contents(Run(s, acts))
  {
    InitInv(s);
    RunConserves(s, acts);
  }

  // ---------------------------------------------------------------- calls and their effects

  /** The argument of the `Enqueue` call that an action begins. */
  function Called<T>(a: Action<T>, t: nat): seq<T> {
    if a.StartEnqueue? && a.t == t then [a.value] else []
  }

  function CalledIn<T>(acts: seq<Action<T>>, t: nat): seq<T> {
    if acts == [] then [] else Called(acts[0], t) + CalledIn(acts[1..], t)
  }

  /** The argument of an `Enqueue` call that has not linked its node yet. */
  function Unlinked<T>(l: Local<T>): seq<T> {
    match l
    case EnqData(value, _) => [value]
    case EnqInit(value, _) => [value]
    case EnqReadTail(value, _) => [value]
    case EnqReadNext(value, _, _) => [value]
    case EnqRecheck(value, _, _, _) => [value]
    case EnqLink(value, _, _, _) => [value]
    case EnqHelp(value, _, _, _) => [value]
    case _ => []
  }

  function AppendedBy<T>(s: State<T>, acts: seq<Action<T>>, t: nat): seq<T>
    requires Legal(s, acts)
    decreases |acts|
  {
    if acts == [] then []
    else
      AppendsAs(s, acts[0], t) + AppendedBy(Apply(s, acts[0]), acts[1..], t)
  }

  /** What a `Dequeue` call hands out with its last step, and what it still holds before. */
  function Returns<T>(s: State<T>, a: Action<T>, t: nat): seq<T>
    requires t < |s.threads| && Enabled(s, a)
  {
    if a.Continue? && a.t == t && s.threads[t].DeqFree? && s.threads[t].node in s.nodes then [s.threads[t].data]
    else []
  }

  function Taken<T>(l: Local<T>): seq<T> {
    if l.DeqFree? then [l.data] else []
  }

  function ReturnedIn<T>(s: State<T>, acts: seq<Action<T>>, t: nat): seq<T>
    requires t < |s.threads| && Legal(s, acts)
    decreases |acts|
  {
    if acts == [] then []
    else Returns(s, acts[0], t) + ReturnedIn(Apply(s, acts[0]), acts[1..], t)
  }

  function RemovedBy<T>(s: State<T>, acts: seq<Action<T>>, t: nat): seq<T>
    requires Legal(s, acts)
    decreases |acts|
  {
    if acts == [] then []
    else
      RemovesAs(s, acts[0], t) + RemovedBy(Apply(s, acts[0]), acts[1..], t)
  }

  function AppendsAs<T>(s: State<T>, a: Action<T>, t: nat): seq<T>
    requires Enabled(s, a)
  {
    if a.Continue? && a.t == t then StepAppends(s, a) else []
  }

  function RemovesAs<T>(s: State<T>, a: Action<T>, t: nat): seq<T>
    requires Enabled(s, a)
  {
    if a.Continue? && a.t == t then StepRemoves(s, a) else []
  }

  predicate Acts<T>(a: Action<T>, t: nat) {
    (a.StartEnqueue? || a.StartDequeue? || a.Continue?) && a.t == t
  }

  predicate Enqueueing<T>(l: Local<T>) {
    l.EnqData? || l.EnqInit? || l.EnqReadTail? || l.EnqReadNext? || l.EnqRecheck? || l.EnqLink? || l.EnqHelp?
    || l.EnqSwing? || l.EnqCount?
  }

  lemma EnqueuerMovesItself<T>(s: State<T>, t: nat)
    requires t < |s.threads| && Accessed(s.threads[t]) <= s.nodes.Keys && Enqueueing(s.threads[t])
    ensures Step(s, t).threads == s.threads[t := Step(s, t).threads[t]]
  {
  }

  lemma DequeuerMovesItself<T>(s: State<T>, t: nat)
    requires t < |s.threads| && Accessed(s.threads[t]) <= s.nodes.Keys && !Enqueueing(s.threads[t])
    ensures Step(s, t).threads == s.threads[t := Step(s, t).threads[t]]
  {
  }

  lemma StepMovesOneThread<T>(s: State<T>, t: nat)
    requires t < |s.threads| && Accessed(s.threads[t]) <= s.nodes.Keys
    ensures |Step(s, t).threads| == |s.threads|
    ensures forall u :: 0 <= u < |s.threads| && u != t ==> Step(s, t).threads[u] == s.threads[u]
  {
    hide Step, Enqueueing, Accessed;
    if Enqueueing(s.threads[t]) {
      EnqueuerMovesItself(s, t);
    } else {
      DequeuerMovesItself(s, t);
    }
  }

  lemma OthersDoNotMove<T>(s: State<T>, a: Action<T>, t: nat)
    requires t < |s.threads| && Enabled(s, a)
    ensures |Apply(s, a).threads| == |s.threads|
    ensures !Acts(a, t) ==> Apply(s, a).threads[t] == s.threads[t]
  {
    if a.Continue? && Accessed(s.threads[a.t]) <= s.nodes.Keys {
      StepMovesOneThread(s, a.t);
    }
  }

  lemma StepOfLink<T>(s: State<T>, t: nat)
    requires t < |s.threads| && s.threads[t].EnqLink? && Accessed(s.threads[t]) <= s.nodes.Keys
    requires Enabled(s, Continue(t))
    requires |Step(s, t).threads| == |s.threads|
    ensures Unlinked(s.threads[t]) == StepAppends(s, Continue(t)) + Unlinked(Step(s, t).threads[t])
  {
  }

  lemma StepOfEnqueuer<T>(s: State<T>, t: nat)
    requires t < |s.threads| && Enqueueing(s.threads[t]) && !s.threads[t].EnqLink?
    requires Accessed(s.threads[t]) <= s.nodes.Keys
    requires |Step(s, t).threads| == |s.threads|
    ensures Unlinked(s.threads[t]) == Unlinked(Step(s, t).threads[t])
  {
  }

  lemma StepOfDequeuer<T>(s: State<T>, t: nat)
    requires t < |s.threads| && !Enqueueing(s.threads[t]) && Accessed(s.threads[t]) <= s.nodes.Keys
    requires |Step(s, t).threads| == |s.threads|
    ensures Unlinked(s.threads[t]) == Unlinked(Step(s, t).threads[t])
  {
  }

  lemma StepOfEnqueue<T>(s: State<T>, t: nat)
    requires t < |s.threads| && Accessed(s.threads[t]) <= s.nodes.Keys && Enabled(s, Continue(t))
    requires |Step(s, t).threads| == |s.threads|
    ensures Unlinked(s.threads[t]) == StepAppends(s, Continue(t)) + Unlinked(Step(s, t).threads[t])
  {
    hide Step, Unlinked, Accessed, Enabled, Enqueueing;
    if s.threads[t].EnqLink? {
      StepOfLink(s, t);
    } else {
      if Enqueueing(s.threads[t]) { StepOfEnqueuer(s, t); } else { StepOfDequeuer(s, t); }
      assert StepAppends(s, Continue(t)) == [];
    }
  }

  lemma StepOfDequeue<T>(s: State<T>, t: nat)
    requires t < |s.threads| && Accessed(s.threads[t]) <= s.nodes.Keys && Enabled(s, Continue(t))
    requires |Step(s, t).threads| == |s.threads|
    ensures Taken(s.threads[t]) + StepRemoves(s, Continue(t))
            == Returns(s, Continue(t), t) + Taken(Step(s, t).threads[t])
  {
    hide Enabled;
    match s.threads[t]
    case DeqSwing(_, _, _) =>
    case DeqFree(_, _) =>
    case _ => assert StepRemoves(s, Continue(t)) == [];
  }

  lemma StepOfCall<T>(s: State<T>, a: Action<T>, t: nat)
    requires t < |s.threads| && Enabled(s, a)
    ensures |Apply(s, a).threads| == |s.threads|
    ensures Unlinked(s.threads[t]) + Called(a, t) == AppendsAs(s, a, t) + Unlinked(Apply(s, a).threads[t])
    ensures Taken(s.threads[t]) + RemovesAs(s, a, t) == Returns(s, a, t) + Taken(Apply(s, a).threads[t])
  {
    OthersDoNotMove(s, a, t);
    if a.Continue? && a.t == t && Accessed(s.threads[t]) <= s.nodes.Keys {
      StepOfEnqueue(s, t);
      StepOfDequeue(s, t);
    }
  }

  /** Each `Enqueue` call appends its argument exactly once, and each value a thread removes is
      returned by exactly one of its `Dequeue` calls, in the same order. */
  lemma {:induction false} CallsTheorem<T>(s: State<T>, acts: seq<Action<T>>, t: nat)
    requires t < |s.threads| && Legal(s, acts)
    ensures |Run(s, acts).threads| == |s.threads|
    ensures Unlinked(s.threads[t]) + CalledIn(acts, t) == AppendedBy(s, acts, t) + Unlinked(Run(s, acts).threads[t])
    ensures Taken(s.threads[t]) + RemovedBy(s, acts, t) == ReturnedIn(s, acts, t) + Taken(Run(s, acts).threads[t])
    decreases |acts|
  {
    if acts != [] {
      var a, s' := acts[0], Apply(s, acts[0]);
      StepOfCall(s, a, t);
      CallsTheorem(s', acts[1..], t);
      Splice(Unlinked(s.threads[t]), Called(a, t), AppendsAs(s, a, t),
             Unlinked(s'.threads[t]), CalledIn(acts[1..], t), AppendedBy(s', acts[1..], t),
             Unlinked(Run(s, acts).threads[t]));
      Splice(Taken(s.threads[t]), RemovesAs(s, a, t), Returns(s, a, t),
             Taken(s'.threads[t]), RemovedBy(s', acts[1..], t), ReturnedIn(s', acts[1..], t),
             Taken(Run(s, acts).threads[t]));
    }
  }

  // ---------------------------------------------------------------- reservations

  /** A dequeuer that got past its decrement always has an element to take. */
  lemma ReservedHasElement<T>(s: State<T>, t: nat)
    requires Inv(s) && t < |s.threads| && Reserved(s.threads[t]) == 1
    ensures Contents(s) != []
  {
    SumCovers(s.threads, t, Reserved);
  }

  /** So reading a null link behind the head node means that the head snapshot is stale. */
  lemma NullLinkMeansStaleHead<T>(s: State<T>, t: nat)
    requires Inv(s) && t < |s.threads| && s.threads[t].DeqReadNext?
    requires s.threads[t].head.ptr in s.nodes && s.nodes[s.threads[t].head.ptr].next.ptr == NULL
    ensures s.threads[t].head != s.head
  {
    ReservedHasElement(s, t);
    assert s.nodes[s.list[0]].next.ptr == s.list[1];
    assert s.list[1] in s.nodes;
  }

  /** Exactly when `Dequeue` gives up: the elements that are linked, counted and not yet reserved
      are outnumbered or matched by failed dequeuers that have not restored the counter. */
  lemma FailsIff<T>(s: State<T>, t: nat)
    requires Inv(s) && Enabled(s, StartDequeue(t))
    ensures Apply(s, StartDequeue(t)).threads[t].DeqRestore? <==>
            |Contents(s)| <= Sum(s.threads, Uncounted) + Sum(s.threads, Reserved) + Sum(s.threads, Unrestored)
  {
  }

  /** Exactly when `Dequeue` fails although a counted element waits that nobody has reserved: there is
      one, and at least as many failed dequeuers have not restored the counter. */
  lemma FailsWithElementIff<T>(s: State<T>, t: nat)
    requires Inv(s) && Enabled(s, StartDequeue(t))
    ensures var waiting := |Contents(s)| - Sum(s.threads, Uncounted) - Sum(s.threads, Reserved);
            waiting > 0 && Apply(s, StartDequeue(t)).threads[t].DeqRestore?
            <==> 0 < waiting <= Sum(s.threads, Unrestored)
  {
    FailsIff(s, t);
  }

  /** With a single consumer, `false` means that every counted enqueue has been consumed. */
  lemma SingleConsumerFailsIffDrained<T>(s: State<T>, t: nat)
    requires Inv(s) && Enabled(s, StartDequeue(t))
    requires forall u :: 0 <= u < |s.threads| ==> Reserved(s.threads[u]) == 0 && Unrestored(s.threads[u]) == 0
    ensures Apply(s, StartDequeue(t)).threads[t].DeqRestore? <==> |Contents(s)| == Sum(s.threads, Uncounted)
  {
    SumZero(s.threads, Reserved);
    SumZero(s.threads, Unrestored);
    FailsIff(s, t);
  }

  /** The list that the invariant speaks of is the one in memory: following the links from the head
      node yields it and nothing else. */
  lemma {:induction false} ListIsTheChain<T>(nodes: map<Ptr, Node<T>>, list: seq<Ptr>, other: seq<Ptr>)
    requires NULL !in nodes && Chain(nodes, list) && Chain(nodes, other) && list[0] == other[0]
    ensures list == other
    decreases |list|
  {
    if |list| == 1 {
      if |other| > 1 {
        assert false;
      }
    } else {
      assert nodes[list[0]].next.ptr == list[1] && list[1] in nodes;
      assert |other| > 1 && other[1] == list[1];
      TailChain(nodes, list);
      TailChain(nodes, other);
      ListIsTheChain(nodes, list[1..], other[1..]);
      assert list == [list[0]] + list[1..] && other == [other[0]] + other[1..];
    }
  }

  lemma TailChain<T>(nodes: map<Ptr, Node<T>>, list: seq<Ptr>)
    requires Chain(nodes, list) && |list| > 1
    ensures Chain(nodes, list[1..])
  {
    assert forall i :: 0 <= i < |list| - 1 ==> list[1..][i] == list[i + 1];
  }

  // ---------------------------------------------------------------- several consumers

  lemma {:induction false} Extend<T>(s: State<T>, acts: seq<Action<T>>, a: Action<T>)
    requires Legal(s, acts) && Enabled(Run(s, acts), a)
    ensures Legal(s, acts + [a]) && Run(s, acts + [a]) == Apply(Run(s, acts), a)
    decreases |acts|
  {
    if acts == [] {
      assert acts + [a] == [a] && [a][1..] == [];
    } else {
      assert (acts + [a])[0] == acts[0] && (acts + [a])[1..] == acts[1..] + [a];
      Extend(Apply(s, acts[0]), acts[1..], a);
    }
  }

  lemma Then<T>(s: State<T>, acts: seq<Action<T>>, cur: State<T>, a: Action<T>)
      returns (acts': seq<Action<T>>, cur': State<T>)
    requires Legal(s, acts) && Run(s, acts) == cur && Enabled(cur, a)
    ensures Legal(s, acts') && Run(s, acts') == cur' && cur' == Apply(cur, a)
  {
    Extend(s, acts, a);
    acts', cur' := acts + [a], Apply(cur, a);
  }

  lemma Begins<T>(s: State<T>)
    ensures Legal(s, []) && Run(s, []) == s
  {
  }

  /** A new queue of numbers used by three threads. */
  function Fresh(): State<int> {
    State(map[1 := Node(0, Stamped(1, NULL), Listed)], Stamped(0, 1), Stamped(0, 1), 0,
          [Idle, Idle, Idle], [1], false)
  }

  lemma NodeAllocated() returns (acts: seq<Action<int>>, cur: State<int>)
    ensures Legal(Fresh(), acts) && Run(Fresh(), acts) == cur
    ensures cur == State(map[1 := Node(0, Stamped(1, NULL), Listed), 2 := Node(0, Stamped(0, NULL), Held(2))],
                         Stamped(0, 1), Stamped(0, 1), -1, [DeqRestore, Idle, EnqData(7, 2)], [1], false)
  {
    Begins(Fresh());
    hide Legal, Run;
    acts, cur := Then(Fresh(), [], Fresh(), StartDequeue(0));
    acts, cur := Then(Fresh(), acts, cur, PoolGrows(2, 0));
    acts, cur := Then(Fresh(), acts, cur, StartEnqueue(2, 7, 2));
  }

  lemma NodePrepared() returns (acts: seq<Action<int>>, cur: State<int>)
    ensures Legal(Fresh(), acts) && Run(Fresh(), acts) == cur
    ensures cur == State(map[1 := Node(0, Stamped(1, NULL), Listed), 2 := Node(7, Stamped(1, NULL), Held(2))],
                         Stamped(0, 1), Stamped(0, 1), -1, [DeqRestore, Idle, EnqReadTail(7, 2)], [1], false)
  {
    hide Legal, Run;
    acts, cur := NodeAllocated();
    acts, cur := Then(Fresh(), acts, cur, Continue(2));
    acts, cur := Then(Fresh(), acts, cur, Continue(2));
  }

  lemma NodeReadyToLink() returns (acts: seq<Action<int>>, cur: State<int>)
    ensures Legal(Fresh(), acts) && Run(Fresh(), acts) == cur
    ensures cur == State(map[1 := Node(0, Stamped(1, NULL), Listed), 2 := Node(7, Stamped(1, NULL), Held(2))],
                         Stamped(0, 1), Stamped(0, 1), -1,
                         [DeqRestore, Idle, EnqLink(7, 2, Stamped(0, 1), Stamped(1, NULL))], [1], false)
  {
    hide Legal, Run;
    acts, cur := NodePrepared();
    acts, cur := Then(Fresh(), acts, cur, Continue(2));
    acts, cur := Then(Fresh(), acts, cur, Continue(2));
    acts, cur := Then(Fresh(), acts, cur, Continue(2));
  }

  /** A whole `Enqueue(7)` by thread 2 while thread 0 has failed and not restored the counter. */
  lemma EnqueueBehindFailure() returns (acts: seq<Action<int>>, cur: State<int>)
    ensures Legal(Fresh(), acts) && Run(Fresh(), acts) == cur
    ensures cur == State(map[1 := Node(0, Stamped(2, 2), Listed), 2 := Node(7, Stamped(1, NULL), Listed)],
                         Stamped(0, 1), Stamped(1, 2), 0, [DeqRestore, Idle, Idle], [1, 2], false)
  {
    hide Legal, Run;
    acts, cur := NodeReadyToLink();
    acts, cur := Then(Fresh(), acts, cur, Continue(2));
    acts, cur := Then(Fresh(), acts, cur, Continue(2));
    acts, cur := Then(Fresh(), acts, cur, Continue(2));
  }

  /** With several consumers `false` does not mean empty: here thread 1 fails although the value 7
      is linked and counted and no dequeuer has reserved it. */
  lemma FailureWithElement() returns (acts: seq<Action<int>>)
    ensures Init(Fresh()) && Legal(Fresh(), acts)
    ensures Inv(Run(Fresh(), acts)) && Contents(Run(Fresh(), acts)) == [7]
    ensures Run(Fresh(), acts).threads == [DeqRestore, DeqRestore, Idle]
  {
    var cur;
    acts, cur := EnqueueBehindFailure();
    acts, cur := Then(Fresh(), acts, cur, StartDequeue(1));
    FifoTheorem(Fresh(), acts);
  }
}
