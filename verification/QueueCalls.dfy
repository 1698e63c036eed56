/** What a call of `Enqueue` or `Dequeue` comes to: how it answers, why it may have to try again, and that
    it ends when nobody interferes. */
module QueueCalls {
  import opened TaggedPointer
  import opened Tallying
  import opened LockFreeQueue
  import opened QueueRefinement

  // ---------------------------------------------------------------- the answer of Dequeue

  /** A `Dequeue` that will answer `true`. */
  function Committed<T>(l: Local<T>): nat {
    if Reserved(l) == 1 || l.DeqFree? then 1 else 0
  }

  /** A dequeuer that got past its decrement keeps its reservation until it has taken a value: it never
      answers `false`, however many exchanges it loses. */
  lemma ReservedNeverFails<T>(s: State<T>, t: nat)
    requires Inv(s) && Enabled(s, Continue(t)) && Reserved(s.threads[t]) == 1
    ensures |Apply(s, Continue(t)).threads| == |s.threads|
    ensures Committed(Apply(s, Continue(t)).threads[t]) == 1
  {
    hide Inv;
    ContinueKeepsInv(s, t);
    StepMovesOneThread(s, t);
  }

  /** A `Dequeue` that gets past its decrement. */
  predicate Granted<T>(s: State<T>, a: Action<T>, t: nat)
    requires Enabled(s, a)
  {
    a == StartDequeue(t) && s.size >= 1
  }

  function GrantedIn<T>(s: State<T>, acts: seq<Action<T>>, t: nat): nat
    requires Legal(s, acts)
    decreases |acts|
  {
    if acts == [] then 0
    else (if Granted(s, acts[0], t) then 1 else 0) + GrantedIn(Apply(s, acts[0]), acts[1..], t)
  }

  lemma FreedIsReturned<T>(s: State<T>, t: nat)
    requires Inv(s) && Enabled(s, Continue(t)) && s.threads[t].DeqFree?
    ensures |Apply(s, Continue(t)).threads| == |s.threads| && Apply(s, Continue(t)).threads[t].Idle?
    ensures |Returns(s, Continue(t), t)| == 1
  {
    assert LocalInv(s, s.threads[t]);
  }

  lemma OthersStayUncommitted<T>(s: State<T>, t: nat)
    requires Inv(s) && Enabled(s, Continue(t)) && Committed(s.threads[t]) == 0
    ensures |Apply(s, Continue(t)).threads| == |s.threads|
    ensures Committed(Apply(s, Continue(t)).threads[t]) == 0
  {
    hide Inv;
    ContinueKeepsInv(s, t);
    StepMovesOneThread(s, t);
  }

  lemma CommittedMoves<T>(s: State<T>, a: Action<T>, t: nat)
    requires Inv(s) && Enabled(s, a) && t < |s.threads|
    ensures |Apply(s, a).threads| == |s.threads|
    ensures Committed(s.threads[t]) + (if Granted(s, a, t) then 1 else 0)
            == |Returns(s, a, t)| + Committed(Apply(s, a).threads[t])
  {
    hide Inv, Step;
    OthersDoNotMove(s, a, t);
    if a.Continue? && a.t == t {
      if Reserved(s.threads[t]) == 1 {
        ReservedNeverFails(s, t);
      } else if s.threads[t].DeqFree? {
        FreedIsReturned(s, t);
      } else {
        OthersStayUncommitted(s, t);
      }
    }
  }

  /** The calls of `Dequeue` that find the counter positive are exactly those that return a value, but for
      one that is still on its way; all others answer `false`. */
  lemma {:induction false} DequeuesTheorem<T>(s: State<T>, acts: seq<Action<T>>, t: nat)
    requires Inv(s) && Legal(s, acts) && t < |s.threads|
    ensures |Run(s, acts).threads| == |s.threads|
    ensures Committed(s.threads[t]) + GrantedIn(s, acts, t)
            == |ReturnedIn(s, acts, t)| + Committed(Run(s, acts).threads[t])
    decreases |acts|
  {
    hide Inv, Enabled, Apply, Committed, Granted, Returns;
    if acts != [] {
      ApplyKeepsInv(s, acts[0]);
      CommittedMoves(s, acts[0], t);
      DequeuesTheorem(Apply(s, acts[0]), acts[1..], t);
    }
  }

  // ---------------------------------------------------------------- trying again

  /** The beginning of a turn. */
  predicate Begins<T>(l: Local<T>) {
    l.EnqReadTail? || l.DeqReadHead?
  }

  /** A word that the thread read has been written since. */
  predicate Stale<T>(s: State<T>, l: Local<T>) {
    match l
    case EnqRecheck(_, _, tail, _) => tail != s.tail
    case EnqLink(_, _, tail, next) => tail.ptr in s.nodes && next != s.nodes[tail.ptr].next
    case EnqHelp(_, _, tail, _) => tail != s.tail
    case DeqReadNext(head, _) => head != s.head
    case DeqHelp(tail, _) => tail != s.tail
    case DeqSwing(head, _, _) => head != s.head
    case _ => false
  }

  predicate InDequeue<T>(l: Local<T>) {
    l.DeqReadHead? || l.DeqReadTail? || l.DeqReadNext? || l.DeqHelp? || l.DeqReadData? || l.DeqSwing?
  }

  predicate Beaten<T>(s: State<T>, l: Local<T>, z: State<T>) {
    Stale(s, l) || z.tail.ver == s.tail.ver + 1
  }

  lemma EnqueueBeaten<T>(s: State<T>, t: nat)
    requires Enabled(s, Continue(t)) && Accessed(s.threads[t]) <= s.nodes.Keys
    requires !InDequeue(s.threads[t]) && !s.threads[t].EnqInit?
    requires |Step(s, t).threads| == |s.threads| && Begins(Step(s, t).threads[t])
    ensures Beaten(s, s.threads[t], Step(s, t))
  {
  }

  lemma DequeueBeaten<T>(s: State<T>, t: nat)
    requires Enabled(s, Continue(t)) && Accessed(s.threads[t]) <= s.nodes.Keys && InDequeue(s.threads[t])
    requires var l := s.threads[t];
             l.DeqReadNext? && s.nodes[l.head.ptr].next.ptr == NULL ==> l.head != s.head
    requires |Step(s, t).threads| == |s.threads| && Begins(Step(s, t).threads[t])
    ensures Beaten(s, s.threads[t], Step(s, t))
  {
  }

  /** A turn has to be repeated only if another thread has written the word since this one read it, or if
      this one has just moved the tail on. */
  lemma RetryMeansBeaten<T>(s: State<T>, t: nat)
    requires Inv(s) && Enabled(s, Continue(t)) && !s.threads[t].EnqInit?
    requires |Apply(s, Continue(t)).threads| == |s.threads| && Begins(Apply(s, Continue(t)).threads[t])
    ensures Stale(s, s.threads[t]) || Apply(s, Continue(t)).tail.ver == s.tail.ver + 1
  {
    hide Inv, Step, Stale, Begins;
    ContinueKeepsInv(s, t);
    if InDequeue(s.threads[t]) {
      if s.threads[t].DeqReadNext? && s.nodes[s.threads[t].head.ptr].next.ptr == NULL {
        NullLinkMeansStaleHead(s, t);
      }
      DequeueBeaten(s, t);
    } else {
      EnqueueBeaten(s, t);
    }
  }

  // ---------------------------------------------------------------- a tail that lags

  /** The tail is one node behind. */
  predicate Behind<T>(s: State<T>) {
    s.tail.ptr in s.nodes && s.nodes[s.tail.ptr].next.ptr != NULL
  }

  /** The thread is about to take a step. */
  ghost predicate Moving<T>(s: State<T>, t: nat) {
    && t < |s.threads| && !s.threads[t].Idle? && InTime(s, s.threads[t])
    && Accessed(s.threads[t]) <= s.nodes.Keys && LocalInv(s, s.threads[t])
    && s.tail.ptr in s.nodes && s.head.ptr in s.nodes
  }

  lemma InvMoves<T>(s: State<T>, t: nat)
    requires Inv(s) && Enabled(s, Continue(t))
    ensures Moving(s, t)
  {
    ContinueKeepsInv(s, t);
    hide Accessed, InTime;
    assert LocalInv(s, s.threads[t]);
    assert s.tail.ptr in s.list && s.head.ptr in s.list;
  }

  /** The node behind the tail has no successor. */
  lemma OneBehind<T>(s: State<T>)
    requires ListInv(s) && NULL !in s.nodes
    ensures s.tail.ptr in s.nodes
    ensures Behind(s) ==> var p := s.nodes[s.tail.ptr].next.ptr; p in s.nodes && s.nodes[p].next.ptr == NULL
  {
    TailIsLast(s);
  }

  lemma OwnIsNotTail<T>(s: State<T>, t: nat)
    requires Inv(s) && t < |s.threads|
    ensures NULL !in s.nodes && ListInv(s)
    ensures s.threads[t].EnqData? || s.threads[t].EnqInit? ==>
              s.threads[t].node in s.nodes && s.threads[t].node != s.tail.ptr
  {
    hide SizeInv;
    assert HasOwn(s, s.threads[t], t) && LocalInv(s, s.threads[t]);
    TailIsListed(s);
  }

  /** `t` has linked the node behind the tail and not moved the tail yet. */
  predicate Owes<T>(s: State<T>, t: nat) {
    t < |s.threads| && s.threads[t].EnqSwing? && s.threads[t].tail == s.tail
  }

  ghost predicate SwingOwed<T>(s: State<T>) {
    Behind(s) ==> exists t :: Owes(s, t)
  }

  /** The tail only moves when it lags, and then to the last node. */
  predicate CatchesUp<T>(s: State<T>, z: State<T>) {
    z.tail == s.tail || (Behind(s) && !Behind(z))
  }

  lemma HelperCatchesUp<T>(s: State<T>, t: nat)
    requires Moving(s, t) && ListInv(s) && NULL !in s.nodes
    requires s.threads[t].EnqHelp? || s.threads[t].DeqHelp? || s.threads[t].EnqSwing?
    ensures CatchesUp(s, Step(s, t)) && (Owes(s, t) || Behind(s) || !Behind(Step(s, t)))
    ensures Owes(s, t) ==> Step(s, t).tail != s.tail
  {
    var l := s.threads[t];
    CasMeansUnchanged(l.tail, s.tail);
    OneBehind(s);
    hide ListInv;
    assert l.tail == s.tail && l.EnqHelp? ==> l.next.ptr in s.nodes;
    assert l.tail == s.tail && l.DeqHelp? ==> l.next.ptr == s.nodes[s.tail.ptr].next.ptr;
    assert l.tail == s.tail && l.EnqSwing? ==> l.node == s.nodes[s.tail.ptr].next.ptr;
  }

  lemma LinkerOwes<T>(s: State<T>, t: nat)
    requires Moving(s, t) && s.threads[t].EnqLink?
    ensures Step(s, t).tail == s.tail && (Behind(Step(s, t)) ==> Behind(s) || Owes(Step(s, t), t))
  {
    var l := s.threads[t];
    CasMeansUnchanged(l.next, s.nodes[l.tail.ptr].next);
  }

  lemma RestKeepsTail<T>(s: State<T>, t: nat)
    requires Moving(s, t) && !s.threads[t].EnqLink?
    requires !s.threads[t].EnqHelp? && !s.threads[t].DeqHelp? && !s.threads[t].EnqSwing?
    requires s.threads[t].EnqData? || s.threads[t].EnqInit? ==> s.threads[t].node != s.tail.ptr
    ensures Step(s, t).tail == s.tail && (Behind(Step(s, t)) ==> Behind(s))
  {
    hide LocalInv;
  }

  /** Who has linked still owes, or the tail has caught up. */
  lemma OwnStepOwes<T>(s: State<T>, t: nat)
    requires Inv(s) && Enabled(s, Continue(t)) && SwingOwed(s)
    ensures SwingOwed(Apply(s, Continue(t)))
  {
    InvMoves(s, t);
    OwnIsNotTail(s, t);
    hide Moving, Step, Behind, LocalInv, OwnerInv, SizeInv, ListInv;
    var l, z := s.threads[t], Step(s, t);
    if l.EnqHelp? || l.DeqHelp? || l.EnqSwing? { HelperCatchesUp(s, t); }
    else if l.EnqLink? { LinkerOwes(s, t); }
    else { RestKeepsTail(s, t); }
    StepMovesOneThread(s, t);
    if Behind(z) && !Owes(z, t) {
      var u :| Owes(s, u);
      assert u != t && Owes(z, u);
    }
  }

  lemma OtherActionsOwe<T>(s: State<T>, a: Action<T>)
    requires Inv(s) && Enabled(s, a) && !a.Continue? && SwingOwed(s)
    ensures SwingOwed(Apply(s, a))
  {
    hide SizeInv, LocalInv, HasOwn, HolderHas, Chain;
    TailIsListed(s);
    var z := Apply(s, a);
    if Behind(z) {
      var u :| Owes(s, u);
      assert Owes(z, u);
    }
  }

  lemma {:induction false} SwingStaysOwed<T>(s: State<T>, acts: seq<Action<T>>)
    requires Inv(s) && SwingOwed(s) && Legal(s, acts)
    ensures Inv(Run(s, acts)) && SwingOwed(Run(s, acts))
    decreases |acts|
  {
    hide Inv, Enabled, Apply, SwingOwed;
    if acts != [] {
      ApplyKeepsInv(s, acts[0]);
      if acts[0].Continue? { OwnStepOwes(s, acts[0].t); } else { OtherActionsOwe(s, acts[0]); }
      SwingStaysOwed(Apply(s, acts[0]), acts[1..]);
    }
  }

  /** In every run the tail is the last node, unless a thread has linked a node and has yet to move the tail
      to it. */
  lemma TailIsSwung<T>(s: State<T>, acts: seq<Action<T>>)
    requires Init(s) && Legal(s, acts)
    ensures var z := Run(s, acts);
            && z.tail.ptr in z.nodes
            && (z.nodes[z.tail.ptr].next.ptr == NULL
                || exists t :: 0 <= t < |z.threads| && z.threads[t].EnqSwing? && z.threads[t].tail == z.tail)
  {
    hide Inv, Legal, Run;
    InitInv(s);
    SwingStaysOwed(s, acts);
    TailIsThere(Run(s, acts));
    if Behind(Run(s, acts)) {
      var t :| Owes(Run(s, acts), t);
    }
  }

  lemma TailIsThere<T>(s: State<T>)
    requires Inv(s)
    ensures s.tail.ptr in s.nodes
  {
    assert s.tail.ptr in s.list;
  }

  // ---------------------------------------------------------------- alone, every call ends

  /** Steps of a turn of `Enqueue`, and of `Dequeue`, from its beginning. */
  function EnqTurn<T>(s: State<T>): nat {
    if Behind(s) then 10 else 6
  }

  function DeqTurn<T>(s: State<T>): nat {
    if s.head.ptr == s.tail.ptr then 10 else 6
  }

  /** How many more steps a call takes at most if nobody else moves. */
  function Left<T>(s: State<T>, l: Local<T>): nat {
    match l
    case Idle => 0
    case EnqData(_, _) => EnqTurn(s) + 2
    case EnqInit(_, _) => EnqTurn(s) + 1
    case EnqReadTail(_, _) => EnqTurn(s)
    case EnqReadNext(_, _, tail) => if tail == s.tail then EnqTurn(s) - 1 else EnqTurn(s) + 2
    case EnqRecheck(_, _, tail, next) =>
      if tail != s.tail then EnqTurn(s) + 1
      else if tail.ptr in s.nodes && next == s.nodes[tail.ptr].next then EnqTurn(s) - 2
      else EnqTurn(s) + 2
    case EnqLink(_, _, tail, next) =>
      if tail.ptr in s.nodes && next == s.nodes[tail.ptr].next then 3 else EnqTurn(s) + 1
    case EnqHelp(_, _, tail, _) => if tail == s.tail then 7 else EnqTurn(s) + 1
    case EnqSwing(_, _) => 2
    case EnqCount => 1
    case DeqRestore => 1
    case DeqReadHead => DeqTurn(s)
    case DeqReadTail(head) => if head == s.head then DeqTurn(s) - 1 else DeqTurn(s) + 4
    case DeqReadNext(head, tail) =>
      if head != s.head then DeqTurn(s) + 3
      else if head.ptr == tail.ptr && tail != s.tail then DeqTurn(s) + 2
      else DeqTurn(s) - 2
    case DeqHelp(tail, _) => if tail == s.tail then 7 else DeqTurn(s) + 1
    case DeqReadData(head, _) => if head == s.head then 3 else DeqTurn(s) + 2
    case DeqSwing(head, _, _) => if head == s.head then 2 else DeqTurn(s) + 1
    case DeqFree(_, _) => 1
  }

  /** The step brings the call nearer to its end. */
  predicate Nears<T>(s: State<T>, t: nat, z: State<T>) {
    t < |s.threads| == |z.threads| && Left(z, z.threads[t]) < Left(s, s.threads[t])
  }

  lemma PrepareNears<T>(s: State<T>, t: nat)
    requires Moving(s, t) && (s.threads[t].EnqData? || s.threads[t].EnqInit?)
    requires s.threads[t].node != s.tail.ptr && s.threads[t].node in s.nodes
    ensures Nears(s, t, Step(s, t))
  {
  }

  lemma ReadTailNears<T>(s: State<T>, t: nat)
    requires Moving(s, t) && s.threads[t].EnqReadTail?
    ensures Nears(s, t, Step(s, t))
  {
  }

  lemma ReadNextNears<T>(s: State<T>, t: nat)
    requires Moving(s, t) && s.threads[t].EnqReadNext?
    ensures Nears(s, t, Step(s, t))
  {
  }

  lemma RecheckNears<T>(s: State<T>, t: nat)
    requires Moving(s, t) && s.threads[t].EnqRecheck?
    ensures Nears(s, t, Step(s, t))
  {
    var l := s.threads[t];
    CasMeansUnchanged(l.tail, s.tail);
  }

  lemma LinkNears<T>(s: State<T>, t: nat)
    requires Moving(s, t) && s.threads[t].EnqLink?
    ensures Nears(s, t, Step(s, t))
  {
    var l := s.threads[t];
    CasMeansUnchanged(l.next, s.nodes[l.tail.ptr].next);
  }

  lemma HelpNears<T>(s: State<T>, t: nat)
    requires Moving(s, t) && (s.threads[t].EnqHelp? || s.threads[t].DeqHelp?) && ListInv(s) && NULL !in s.nodes
    ensures Nears(s, t, Step(s, t))
  {
    var l := s.threads[t];
    CasMeansUnchanged(l.tail, s.tail);
    OneBehind(s);
    hide ListInv;
    assert l.tail == s.tail && l.EnqHelp? ==> l.next.ptr in s.nodes;
    assert l.tail == s.tail && l.DeqHelp? ==> l.next.ptr == s.nodes[s.tail.ptr].next.ptr;
  }

  lemma CountNears<T>(s: State<T>, t: nat)
    requires Moving(s, t) && (s.threads[t].EnqSwing? || s.threads[t].EnqCount? || s.threads[t].DeqRestore?)
    ensures Nears(s, t, Step(s, t))
  {
  }

  lemma DeqReadNears<T>(s: State<T>, t: nat)
    requires Moving(s, t) && (s.threads[t].DeqReadHead? || s.threads[t].DeqReadTail?)
    ensures Nears(s, t, Step(s, t))
  {
  }

  lemma DeqNextNears<T>(s: State<T>, t: nat)
    requires Moving(s, t) && s.threads[t].DeqReadNext?
    requires s.nodes[s.threads[t].head.ptr].next.ptr == NULL ==> s.threads[t].head != s.head
    ensures Nears(s, t, Step(s, t))
  {
  }

  lemma DeqTakeNears<T>(s: State<T>, t: nat)
    requires Moving(s, t) && (s.threads[t].DeqReadData? || s.threads[t].DeqSwing? || s.threads[t].DeqFree?)
    ensures Nears(s, t, Step(s, t))
  {
    if s.threads[t].DeqSwing? {
      CasMeansUnchanged(s.threads[t].head, s.head);
    }
  }

  /** Whatever the snapshots of a thread, each step that it makes while nobody interferes brings its call
      nearer to its end. */
  lemma StepNears<T>(s: State<T>, t: nat)
    requires Inv(s) && Enabled(s, Continue(t))
    ensures Nears(s, t, Apply(s, Continue(t)))
  {
    InvMoves(s, t);
    OwnIsNotTail(s, t);
    hide Moving, Nears, Step, Left, LocalInv, OwnerInv, SizeInv;
    match s.threads[t]
    case EnqData(_, _) => PrepareNears(s, t);
    case EnqInit(_, _) => PrepareNears(s, t);
    case EnqReadTail(_, _) => ReadTailNears(s, t);
    case EnqReadNext(_, _, _) => ReadNextNears(s, t);
    case EnqRecheck(_, _, _, _) => RecheckNears(s, t);
    case EnqLink(_, _, _, _) => LinkNears(s, t);
    case EnqHelp(_, _, _, _) => HelpNears(s, t);
    case DeqHelp(_, _) => HelpNears(s, t);
    case EnqSwing(_, _) => CountNears(s, t);
    case EnqCount => CountNears(s, t);
    case DeqRestore => CountNears(s, t);
    case DeqReadHead => DeqReadNears(s, t);
    case DeqReadTail(_) => DeqReadNears(s, t);
    case DeqReadNext(head, _) =>
      if s.nodes[head.ptr].next.ptr == NULL { NullLinkMeansStaleHead(s, t); }
      DeqNextNears(s, t);
    case _ => DeqTakeNears(s, t);
  }

  /** No call is more than 14 steps from its end. */
  lemma LeftIsBounded<T>(s: State<T>, l: Local<T>)
    ensures Left(s, l) <= 14 && (Left(s, l) == 0 <==> l.Idle?)
  {
  }

  ghost predicate OnlyContinues<T>(acts: seq<Action<T>>, t: nat) {
    forall i :: 0 <= i < |acts| ==> acts[i] == Continue(t)
  }

  /** A call that runs alone, from whatever point and with whatever snapshots, is over after at most 14
      steps. */
  lemma {:induction false} AloneItEnds<T>(s: State<T>, acts: seq<Action<T>>, t: nat)
    requires Inv(s) && Legal(s, acts) && t < |s.threads| && OnlyContinues(acts, t)
    ensures |Run(s, acts).threads| == |s.threads|
    ensures |acts| + Left(Run(s, acts), Run(s, acts).threads[t]) <= Left(s, s.threads[t]) <= 14
    ensures |acts| == 14 ==> Run(s, acts).threads[t].Idle?
    decreases |acts|
  {
    hide Inv, Enabled, Apply, Left;
    LeftIsBounded(s, s.threads[t]);
    if acts != [] {
      var s' := Apply(s, acts[0]);
      ApplyKeepsInv(s, acts[0]);
      StepNears(s, t);
      assert forall i :: 0 <= i < |acts| - 1 ==> acts[1..][i] == acts[i + 1];
      AloneItEnds(s', acts[1..], t);
    }
    LeftIsBounded(Run(s, acts), Run(s, acts).threads[t]);
  }
}
