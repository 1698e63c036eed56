/** The tagged Treiber stack, as a state machine over its atomic steps.

    It covers both stacks of the repository: the index stack of MyLibrary/LockFreeStack.h, whose
    nodes come from a pool shared with other stacks, and the chunk stack of
    MyLibrary/LockFreeMemoryPool.h, whose nodes are the head blocks of chunks that thread caches
    take apart, relink and push again.  Only the top carries a tag.  A node outside the stack can be
    rewritten at any time (`Scribble`), also while a slow `Pop` still reads its link. */
module TaggedStack {
  import opened TaggedPointer

  /** Who may touch a node.  Bookkeeping only. */
  datatype Owner = Outside | Listed | Held(thread: nat)

  datatype Node<T> = Node(data: T, next: Ptr, owner: Owner)

  datatype Local<T> =
    | Idle
    // Push(value)
    | PushData(value: T, node: Ptr)
    | PushRead(value: T, node: Ptr)
    | PushLink(value: T, node: Ptr, top: Stamped)
    | PushSwing(value: T, node: Ptr, top: Stamped)
    // Pop
    | PopRead
    | PopLink(top: Stamped)
    | PopSwing(top: Stamped, next: Ptr)
    | PopData(node: Ptr)

  /** `list` records the stacked addresses from the top down and `crashed` an access outside the
      node memory; no step of the algorithm reads them. */
  datatype State<T> = State(
    nodes: map<Ptr, Node<T>>,
    top: Stamped,
    threads: seq<Local<T>>,
    list: seq<Ptr>,
    crashed: bool)

  datatype Action<T> =
    | StartPush(t: nat, value: T, node: Ptr)
    | StartPop(t: nat)
    | Continue(t: nat)
    | Create(node: Ptr, data: T)
    | Scribble(node: Ptr, data: T, next: Ptr)

  // ---------------------------------------------------------------- steps

  function Goto<T>(s: State<T>, t: nat, l: Local<T>): State<T>
    requires t < |s.threads|
  {
    s.(threads := s.threads[t := l])
  }

  function Put<T>(s: State<T>, p: Ptr, n: Node<T>): State<T> {
    s.(nodes := s.nodes[p := n])
  }

  /** A winning CAS of `Push`. */
  function PutOnTop<T>(s: State<T>, node: Ptr, top: Stamped): State<T>
    requires node in s.nodes
  {
    Put(s, node, s.nodes[node].(owner := Listed)).(top := Rewrite(top, node), list := [node] + s.list)
  }

  /** A winning CAS of `Pop`: the node belongs to the popping thread. */
  function TakeTop<T>(s: State<T>, t: nat, top: Stamped, next: Ptr): State<T>
    requires top.ptr in s.nodes
  {
    Put(s, top.ptr, s.nodes[top.ptr].(owner := Held(t))).(
      top := Rewrite(top, next),
      list := if s.list == [] then [] else s.list[1..])
  }

  function Accessed<T>(l: Local<T>): set<Ptr> {
    match l
    case PushData(_, node) => {node}
    case PushLink(_, node, _) => {node}
    case PushSwing(_, node, _) => {node}
    case PopLink(top) => {top.ptr}
    case PopSwing(top, _) => {top.ptr}
    case PopData(node) => {node}
    case _ => {}
  }

  function Step<T>(s: State<T>, t: nat): State<T>
    requires t < |s.threads| && Accessed(s.threads[t]) <= s.nodes.Keys
  {
    match s.threads[t]
    case Idle => s
    case PushData(value, node) =>
      Goto(Put(s, node, s.nodes[node].(data := value)), t, PushRead(value, node))
    case PushRead(value, node) =>
      Goto(s, t, PushLink(value, node, s.top))
    case PushLink(value, node, top) =>
      Goto(Put(s, node, s.nodes[node].(next := top.ptr)), t, PushSwing(value, node, top))
    case PushSwing(value, node, top) =>
      if Bits(top) == Bits(s.top) then Goto(PutOnTop(s, node, top), t, Idle)
      else Goto(s, t, PushRead(value, node))
    case PopRead =>
      if s.top.ptr == NULL then Goto(s, t, Idle) else Goto(s, t, PopLink(s.top))
    case PopLink(top) =>
      Goto(s, t, PopSwing(top, s.nodes[top.ptr].next))
    case PopSwing(top, next) =>
      if Bits(top) == Bits(s.top) then Goto(TakeTop(s, t, top, next), t, PopData(top.ptr))
      else Goto(s, t, PopRead)
    case PopData(node) =>
      Goto(Put(s, node, s.nodes[node].(owner := Outside)), t, Idle)
  }

  /** The one assumption about timing: a top that the next step compares was read fewer than 2^17
      writes ago. */
  predicate InTime<T>(s: State<T>, l: Local<T>) {
    match l
    case PushSwing(_, _, top) => InWindow(top, s.top)
    case PopSwing(top, _) => InWindow(top, s.top)
    case _ => true
  }

  predicate Enabled<T>(s: State<T>, a: Action<T>) {
    match a
    case StartPush(t, _, node) =>
      t < |s.threads| && s.threads[t].Idle? && node in s.nodes && s.nodes[node].owner == Outside
    case StartPop(t) => t < |s.threads| && s.threads[t].Idle?
    case Continue(t) => t < |s.threads| && !s.threads[t].Idle? && InTime(s, s.threads[t])
    case Create(node, _) => node != NULL && node !in s.nodes
    case Scribble(node, _, _) => node in s.nodes && s.nodes[node].owner == Outside
  }

  function Apply<T>(s: State<T>, a: Action<T>): State<T>
    requires Enabled(s, a)
  {
    match a
    case StartPush(t, value, node) =>
      Goto(Put(s, node, s.nodes[node].(owner := Held(t))), t, PushData(value, node))
    case StartPop(t) => Goto(s, t, PopRead)
    case Continue(t) =>
      if Accessed(s.threads[t]) <= s.nodes.Keys then Step(s, t) else s.(crashed := true)
    case Create(node, data) => Put(s, node, Node(data, NULL, Outside))
    case Scribble(node, data, next) => Put(s, node, Node(data, next, Outside))
  }

  predicate Init<T>(s: State<T>) {
    && s.nodes == map[] && s.top == Stamped(0, NULL) && s.list == [] && !s.crashed
    && (forall t :: 0 <= t < |s.threads| ==> s.threads[t].Idle?)
  }

  // ---------------------------------------------------------------- the abstract stack

  function Contents<T>(s: State<T>): seq<T>
    requires forall p :: p in s.list ==> p in s.nodes
  {
    seq(|s.list|, k requires 0 <= k < |s.list| => s.nodes[s.list[k]].data)
  }

  datatype Effect<T> = Silent | Pushes(value: T) | Pops(value: T) | FindsEmpty

  function EffectOf<T>(s: State<T>, a: Action<T>): Effect<T>
    requires Enabled(s, a)
  {
    if a.Continue? && Accessed(s.threads[a.t]) <= s.nodes.Keys then
      match s.threads[a.t]
      case PushSwing(value, _, top) => if Bits(top) == Bits(s.top) then Pushes(value) else Silent
      case PopSwing(top, _) => if Bits(top) == Bits(s.top) then Pops(s.nodes[top.ptr].data) else Silent
      case PopRead => if s.top.ptr == NULL then FindsEmpty else Silent
      case _ => Silent
    else Silent
  }

  // ---------------------------------------------------------------- invariant

  ghost predicate Chain<T>(nodes: map<Ptr, Node<T>>, top: Ptr, list: seq<Ptr>) {
    && (forall i :: 0 <= i < |list| ==> list[i] in nodes)
    && top == (if list == [] then NULL else list[0])
    && (forall i {:trigger nodes[list[i]].next} :: 0 <= i < |list| ==>
          nodes[list[i]].next == if i + 1 < |list| then list[i + 1] else NULL)
    && (forall i, j :: 0 <= i < j < |list| ==> list[i] != list[j])
  }

  function Owned<T>(l: Local<T>): Ptr {
    match l
    case PushData(_, node) => node
    case PushRead(_, node) => node
    case PushLink(_, node, _) => node
    case PushSwing(_, node, _) => node
    case PopData(node) => node
    case _ => NULL
  }

  ghost predicate HolderHas<T>(s: State<T>, p: Ptr, t: nat) {
    t < |s.threads| && Owned(s.threads[t]) == p
  }

  ghost predicate HasOwn<T>(s: State<T>, l: Local<T>, t: nat) {
    Owned(l) != NULL ==> Owned(l) in s.nodes && s.nodes[Owned(l)].owner == Held(t)
  }

  /** Every node is outside, in the stack, or with exactly one thread. */
  ghost predicate OwnerInv<T>(s: State<T>) {
    && NULL !in s.nodes
    && (forall p :: p in s.nodes ==> (s.nodes[p].owner == Listed <==> p in s.list))
    && (forall p :: p in s.nodes && s.nodes[p].owner.Held? ==> HolderHas(s, p, s.nodes[p].owner.thread))
    && (forall t :: 0 <= t < |s.threads| ==> HasOwn(s, s.threads[t], t))
  }

  ghost predicate LocalInv<T>(s: State<T>, l: Local<T>) {
    match l
    case PushData(_, node) => node in s.nodes
    case PushRead(value, node) => node in s.nodes && s.nodes[node].data == value
    case PushLink(value, node, top) => node in s.nodes && s.nodes[node].data == value && NotNewer(top, s.top)
    case PushSwing(value, node, top) =>
      node in s.nodes && s.nodes[node].data == value && s.nodes[node].next == top.ptr && NotNewer(top, s.top)
    case PopLink(top) => top.ptr in s.nodes && NotNewer(top, s.top)
    case PopSwing(top, next) =>
      top.ptr in s.nodes && NotNewer(top, s.top) && (top == s.top ==> s.nodes[top.ptr].next == next)
    case PopData(node) => node in s.nodes
    case _ => true
  }

  ghost predicate Inv<T>(s: State<T>) {
    && !s.crashed
    && Chain(s.nodes, s.top.ptr, s.list)
    && OwnerInv(s)
    && (forall t :: 0 <= t < |s.threads| ==> LocalInv(s, s.threads[t]))
  }

  // ---------------------------------------------------------------- interference

  /** What every step guarantees to the threads that do not take it. */
  ghost predicate Evolves<T>(s: State<T>, s': State<T>, actor: int) {
    && s.nodes.Keys <= s'.nodes.Keys
    && (s'.top == s.top || s'.top.ver > s.top.ver)
    && (forall p :: p in s.nodes && s.nodes[p].owner.Held? && s.nodes[p].owner.thread != actor ==>
          s'.nodes[p] == s.nodes[p])
    && (s'.top == s.top && s.top.ptr in s.nodes ==> s'.nodes[s.top.ptr].next == s.nodes[s.top.ptr].next)
  }

  ghost predicate Others<T>(s: State<T>) {
    && NULL !in s.nodes
    && (forall u :: 0 <= u < |s.threads| ==> HasOwn(s, s.threads[u], u))
    && (forall u :: 0 <= u < |s.threads| ==> LocalInv(s, s.threads[u]))
  }

  lemma StaysStable<T>(s: State<T>, s': State<T>, actor: int, u: nat)
    requires Others(s) && u < |s.threads| && u != actor && Evolves(s, s', actor)
    ensures LocalInv(s', s.threads[u])
  {
    assert HasOwn(s, s.threads[u], u) && LocalInv(s, s.threads[u]);
  }

  lemma OthersKeep<T>(s: State<T>, s': State<T>, t: nat, l: Local<T>)
    requires Others(s) && t < |s.threads| && s'.threads == s.threads[t := l]
    requires LocalInv(s', l) && Evolves(s, s', t)
    ensures forall u :: 0 <= u < |s'.threads| ==> LocalInv(s', s'.threads[u])
  {
    forall u: nat | u < |s'.threads| ensures LocalInv(s', s'.threads[u]) {
      if u != t {
        StaysStable(s, s', t, u);
      }
    }
  }

  /** Ownership after a step of thread `t` that changes nothing but node `p`. */
  lemma OwnersAfter<T>(s: State<T>, s': State<T>, t: nat, l: Local<T>, p: Ptr, n: Node<T>)
    requires OwnerInv(s) && t < |s.threads| && p in s.nodes
    requires s'.threads == s.threads[t := l] && s'.nodes == s.nodes[p := n]
    requires forall q :: q in s.nodes && q != p ==> (q in s'.list <==> q in s.list)
    requires n.owner == Listed <==> p in s'.list
    requires s.nodes[p].owner == Held(t) || (Owned(s.threads[t]) == NULL && !s.nodes[p].owner.Held?)
    requires if Owned(l) == NULL then !n.owner.Held? else Owned(l) == p && n.owner == Held(t)
    ensures OwnerInv(s')
  {
    assert HasOwn(s, s.threads[t], t);
    assert s.nodes[p].owner.Held? ==> HolderHas(s, p, s.nodes[p].owner.thread);
    forall u: nat | u < |s'.threads| ensures HasOwn(s', s'.threads[u], u) {
      assert HasOwn(s, s.threads[u], u);
    }
    forall q | q in s'.nodes && s'.nodes[q].owner.Held? ensures HolderHas(s', q, s'.nodes[q].owner.thread) {
      assert q != p ==> HolderHas(s, q, s.nodes[q].owner.thread);
    }
  }

  // ---------------------------------------------------------------- the kinds of step

  lemma QuietKeepsInv<T>(s: State<T>, t: nat, l: Local<T>)
    requires Inv(s) && t < |s.threads| && Owned(l) == Owned(s.threads[t])
    requires LocalInv(Goto(s, t, l), l)
    ensures Inv(Goto(s, t, l))
  {
    var s' := Goto(s, t, l);
    OthersKeep(s, s', t, l);
    forall u: nat | u < |s'.threads| ensures HasOwn(s', s'.threads[u], u) {
      assert HasOwn(s, s.threads[u], u) && HasOwn(s, s.threads[t], t);
    }
    forall q | q in s'.nodes && s'.nodes[q].owner.Held? ensures HolderHas(s', q, s'.nodes[q].owner.thread) {
      assert HolderHas(s, q, s.nodes[q].owner.thread);
    }
  }

  lemma ChainFrame<T>(nodes: map<Ptr, Node<T>>, nodes': map<Ptr, Node<T>>, top: Ptr, list: seq<Ptr>)
    requires Chain(nodes, top, list)
    requires forall p :: p in list ==> p in nodes' && nodes'[p].next == nodes[p].next
    ensures Chain(nodes', top, list)
  {
    assert forall i :: 0 <= i < |list| ==> list[i] in list;
  }

  /** The actor writes a node it owns or takes from outside. */
  lemma PrivateWriteKeepsInv<T>(s: State<T>, t: nat, l: Local<T>, p: Ptr, n: Node<T>)
    requires Inv(s) && t < |s.threads| && p in s.nodes && p !in s.list && n.owner != Listed
    requires s.nodes[p].owner == Held(t) || (Owned(s.threads[t]) == NULL && !s.nodes[p].owner.Held?)
    requires if Owned(l) == NULL then n.owner == Outside else Owned(l) == p && n.owner == Held(t)
    requires LocalInv(Goto(Put(s, p, n), t, l), l)
    ensures Inv(Goto(Put(s, p, n), t, l))
  {
    var s' := Goto(Put(s, p, n), t, l);
    assert forall q :: q in s.list ==> q in s.nodes;
    ChainFrame(s.nodes, s'.nodes, s.top.ptr, s.list);
    assert s.top.ptr != NULL ==> s.top.ptr in s.list;
    OwnersAfter(s, s', t, l, p, n);
    OthersKeep(s, s', t, l);
  }

  lemma OutsideWriteKeepsInv<T>(s: State<T>, p: Ptr, n: Node<T>)
    requires Inv(s) && p != NULL && n.owner == Outside
    requires p in s.nodes ==> s.nodes[p].owner == Outside
    ensures Inv(Put(s, p, n))
  {
    var s' := Put(s, p, n);
    assert forall q :: q in s.list ==> q in s.nodes;
    ChainFrame(s.nodes, s'.nodes, s.top.ptr, s.list);
    assert s.top.ptr != NULL ==> s.top.ptr in s.list;
    forall u: nat | u < |s'.threads| ensures HasOwn(s', s'.threads[u], u) && LocalInv(s', s'.threads[u]) {
      assert HasOwn(s, s.threads[u], u);
      StaysStable(s, s', -1, u);
    }
    forall q | q in s'.nodes && s'.nodes[q].owner.Held? ensures HolderHas(s', q, s'.nodes[q].owner.thread) {
      assert HolderHas(s, q, s.nodes[q].owner.thread);
    }
  }

  lemma PushChain<T>(s: State<T>, nodes': map<Ptr, Node<T>>, node: Ptr)
    requires Chain(s.nodes, s.top.ptr, s.list) && node in nodes' && node !in s.list
    requires nodes'[node].next == s.top.ptr
    requires forall p :: p in s.list ==> p in nodes' && nodes'[p].next == s.nodes[p].next
    ensures Chain(nodes', node, [node] + s.list)
  {
    var list := [node] + s.list;
    assert forall i :: 0 < i < |list| ==> list[i] == s.list[i - 1] && s.list[i - 1] in s.list;
  }

  lemma PutOnTopKeepsInv<T>(s: State<T>, t: nat, value: T, node: Ptr)
    requires Inv(s) && t < |s.threads| && s.threads[t] == PushSwing(value, node, s.top) && node in s.nodes
    ensures Inv(Goto(PutOnTop(s, node, s.top), t, Idle))
  {
    var s' := Goto(PutOnTop(s, node, s.top), t, Idle);
    assert HasOwn(s, s.threads[t], t) && LocalInv(s, s.threads[t]);
    assert forall q :: q in s.list ==> q in s.nodes;
    PushChain(s, s'.nodes, node);
    OwnersAfter(s, s', t, Idle, node, s'.nodes[node]);
    OthersKeep(s, s', t, Idle);
  }

  lemma PopChain<T>(s: State<T>, nodes': map<Ptr, Node<T>>)
    requires Chain(s.nodes, s.top.ptr, s.list) && s.list != []
    requires forall p :: p in s.list ==> p in nodes' && nodes'[p].next == s.nodes[p].next
    ensures Chain(nodes', s.nodes[s.top.ptr].next, s.list[1..])
  {
    var list := s.list[1..];
    assert s.nodes[s.list[0]].next == if |list| == 0 then NULL else list[0];
    assert forall i :: 0 <= i < |list| ==> list[i] == s.list[i + 1] && s.list[i + 1] in s.list;
  }

  lemma TopIsFirst<T>(s: State<T>)
    requires Chain(s.nodes, s.top.ptr, s.list) && s.top.ptr in s.nodes && NULL !in s.nodes
    ensures s.list != [] && s.top.ptr == s.list[0] && s.top.ptr !in s.list[1..]
    ensures forall q :: q in s.list <==> q == s.top.ptr || q in s.list[1..]
    ensures forall q :: q in s.list ==> q in s.nodes
  {
    assert s.list == [s.list[0]] + s.list[1..];
  }

  lemma TakeTopKeepsInv<T>(s: State<T>, t: nat, next: Ptr)
    requires Inv(s) && t < |s.threads| && s.threads[t] == PopSwing(s.top, next) && s.top.ptr in s.nodes
    ensures Inv(Goto(TakeTop(s, t, s.top, next), t, PopData(s.top.ptr)))
  {
    var l := PopData(s.top.ptr);
    var s' := Goto(TakeTop(s, t, s.top, next), t, l);
    assert LocalInv(s, s.threads[t]);
    TopIsFirst(s);
    PopChain(s, s'.nodes);
    OwnersAfter(s, s', t, l, s.top.ptr, s'.nodes[s.top.ptr]);
    OthersKeep(s, s', t, l);
  }

  lemma PushStepKeepsInv<T>(s: State<T>, t: nat)
    requires Inv(s) && Enabled(s, Continue(t))
    requires s.threads[t].PushData? || s.threads[t].PushRead? || s.threads[t].PushLink? || s.threads[t].PushSwing?
    ensures Accessed(s.threads[t]) <= s.nodes.Keys && Inv(Step(s, t))
  {
    assert LocalInv(s, s.threads[t]) && HasOwn(s, s.threads[t], t);
    match s.threads[t]
    case PushData(value, node) =>
      PrivateWriteKeepsInv(s, t, PushRead(value, node), node, s.nodes[node].(data := value));
    case PushRead(value, node) => QuietKeepsInv(s, t, PushLink(value, node, s.top));
    case PushLink(value, node, top) =>
      PrivateWriteKeepsInv(s, t, PushSwing(value, node, top), node, s.nodes[node].(next := top.ptr));
    case PushSwing(value, node, top) =>
      CasMeansUnchanged(top, s.top);
      if top == s.top {
        PutOnTopKeepsInv(s, t, value, node);
      } else {
        QuietKeepsInv(s, t, PushRead(value, node));
      }
  }

  lemma PopStepKeepsInv<T>(s: State<T>, t: nat)
    requires Inv(s) && Enabled(s, Continue(t))
    requires s.threads[t].PopRead? || s.threads[t].PopLink? || s.threads[t].PopSwing? || s.threads[t].PopData?
    ensures Accessed(s.threads[t]) <= s.nodes.Keys && Inv(Step(s, t))
  {
    assert LocalInv(s, s.threads[t]) && HasOwn(s, s.threads[t], t);
    match s.threads[t]
    case PopRead =>
      assert s.top.ptr != NULL ==> s.top.ptr == s.list[0];
      QuietKeepsInv(s, t, if s.top.ptr == NULL then Idle else PopLink(s.top));
    case PopLink(top) => QuietKeepsInv(s, t, PopSwing(top, s.nodes[top.ptr].next));
    case PopSwing(top, next) =>
      CasMeansUnchanged(top, s.top);
      if top == s.top {
        TakeTopKeepsInv(s, t, next);
      } else {
        QuietKeepsInv(s, t, PopRead);
      }
    case PopData(node) =>
      PrivateWriteKeepsInv(s, t, Idle, node, s.nodes[node].(owner := Outside));
  }

  /** No step of any thread, and no rewriting of a node outside the stack, breaks it. */
  lemma ApplyKeepsInv<T>(s: State<T>, a: Action<T>)
    requires Inv(s) && Enabled(s, a)
    ensures Inv(Apply(s, a))
  {
    match a
    case StartPush(t, value, node) =>
      PrivateWriteKeepsInv(s, t, PushData(value, node), node, s.nodes[node].(owner := Held(t)));
    case StartPop(t) => QuietKeepsInv(s, t, PopRead);
    case Continue(t) =>
      if s.threads[t].PopRead? || s.threads[t].PopLink? || s.threads[t].PopSwing? || s.threads[t].PopData? {
        PopStepKeepsInv(s, t);
      } else {
        PushStepKeepsInv(s, t);
      }
    case Create(node, data) => OutsideWriteKeepsInv(s, node, Node(data, NULL, Outside));
    case Scribble(node, data, next) => OutsideWriteKeepsInv(s, node, Node(data, next, Outside));
  }


  // ---------------------------------------------------------------- refinement

  lemma StackedDataStays<T>(s: State<T>, a: Action<T>, p: Ptr)
    requires OwnerInv(s) && Enabled(s, a) && p in s.nodes && s.nodes[p].owner == Listed
    ensures p in Apply(s, a).nodes && Apply(s, a).nodes[p].data == s.nodes[p].data
  {
    if a.Continue? {
      assert HasOwn(s, s.threads[a.t], a.t);
      if s.threads[a.t].PushData? {
        assert p != s.threads[a.t].node;
      }
    }
  }

  lemma SilentStep<T>(s: State<T>, a: Action<T>)
    requires Inv(s) && Enabled(s, a) && (EffectOf(s, a).Silent? || EffectOf(s, a).FindsEmpty?)
    ensures Apply(s, a).list == s.list
    ensures EffectOf(s, a).FindsEmpty? ==> s.list == []
  {
  }

  ghost predicate DataStays<T>(s: State<T>, s': State<T>) {
    forall p :: p in s.list ==> p in s.nodes && p in s'.nodes && s'.nodes[p].data == s.nodes[p].data
  }

  lemma SameContents<T>(s: State<T>, s': State<T>)
    requires DataStays(s, s') && s'.list == s.list
    ensures Contents(s') == Contents(s)
  {
    assert forall k :: 0 <= k < |s.list| ==> s.list[k] in s.list;
  }

  lemma PushedContents<T>(s: State<T>, s': State<T>, node: Ptr)
    requires DataStays(s, s') && node in s'.nodes && s'.list == [node] + s.list
    ensures Contents(s') == [s'.nodes[node].data] + Contents(s)
  {
    assert forall k :: 0 <= k < |s.list| ==> s.list[k] in s.list && s'.list[k + 1] == s.list[k];
  }

  lemma PoppedContents<T>(s: State<T>, s': State<T>)
    requires DataStays(s, s') && s.list != [] && s'.list == s.list[1..]
    ensures Contents(s) == [s.nodes[s.list[0]].data] + Contents(s')
  {
    assert forall k :: 0 <= k < |s'.list| ==> s'.list[k] == s.list[k + 1];
    assert forall k :: 0 <= k < |s.list| ==> s.list[k] in s.list;
  }

  lemma WinningPush<T>(s: State<T>, t: nat)
    requires Inv(s) && Enabled(s, Continue(t)) && EffectOf(s, Continue(t)).Pushes?
    ensures var node := Owned(s.threads[t]);
            && Apply(s, Continue(t)).list == [node] + s.list
            && node in Apply(s, Continue(t)).nodes
            && Apply(s, Continue(t)).nodes[node].data == EffectOf(s, Continue(t)).value
  {
    assert LocalInv(s, s.threads[t]);
  }

  lemma WinningPop<T>(s: State<T>, t: nat)
    requires Inv(s) && Enabled(s, Continue(t)) && EffectOf(s, Continue(t)).Pops?
    ensures s.list != [] && s.list[0] in s.nodes && Apply(s, Continue(t)).list == s.list[1..]
    ensures EffectOf(s, Continue(t)).value == s.nodes[s.list[0]].data
    ensures Apply(s, Continue(t)).threads[t] == PopData(s.list[0])
    ensures s.list[0] in Apply(s, Continue(t)).nodes
    ensures Apply(s, Continue(t)).nodes[s.list[0]].owner == Held(t)
    ensures Apply(s, Continue(t)).nodes[s.list[0]].data == s.nodes[s.list[0]].data
    ensures Apply(s, Continue(t)).top.ptr == s.nodes[s.list[0]].next
  {
    assert LocalInv(s, s.threads[t]);
    CasMeansUnchanged(s.threads[t].top, s.top);
    TopIsFirst(s);
  }

  /** Each step is one atomic stack operation.  A `Pop` that wins hands the top node to its thread
      alone, with its value, and installs the true successor although it may have read the link when
      the node was elsewhere; `false` is returned only for an empty stack. */
  lemma StepRefines<T>(s: State<T>, a: Action<T>)
    requires Inv(s) && Enabled(s, a)
    ensures Inv(Apply(s, a))
    ensures Sequential(Contents(s), EffectOf(s, a), Contents(Apply(s, a)))
    ensures EffectOf(s, a).Pops? ==>
              && Apply(s, a).threads[a.t] == PopData(s.list[0])
              && Apply(s, a).nodes[s.list[0]].data == EffectOf(s, a).value
              && Apply(s, a).nodes[s.list[0]].owner == Held(a.t)
  {
    ApplyKeepsInv(s, a);
    var s' := Apply(s, a);
    forall p | p in s.list ensures p in s.nodes && p in s'.nodes && s'.nodes[p].data == s.nodes[p].data {
      StackedDataStays(s, a, p);
    }
    if EffectOf(s, a).Pushes? {
      WinningPush(s, a.t);
      PushedContents(s, s', Owned(s.threads[a.t]));
    } else if EffectOf(s, a).Pops? {
      WinningPop(s, a.t);
      PoppedContents(s, s');
    } else {
      SilentStep(s, a);
      SameContents(s, s');
    }
  }

  /** A popped node stays with the thread that won it, with its value, until that thread frees it. */
  lemma PoppedNodeIsPrivate<T>(s: State<T>, a: Action<T>, t: nat, node: Ptr)
    requires Inv(s) && Enabled(s, a) && t < |s.threads| && s.threads[t] == PopData(node)
    requires !(a.Continue? && a.t == t)
    ensures node in s.nodes && node !in s.list
    ensures forall u :: 0 <= u < |s.threads| && u != t ==> Owned(s.threads[u]) != node
    ensures node in Apply(s, a).nodes && Apply(s, a).nodes[node] == s.nodes[node]
  {
    assert LocalInv(s, s.threads[t]) && HasOwn(s, s.threads[t], t);
    forall u: nat | u < |s.threads| && u != t ensures Owned(s.threads[u]) != node {
      assert HasOwn(s, s.threads[u], u);
    }
    if a.Continue? {
      assert HasOwn(s, s.threads[a.t], a.t) && LocalInv(s, s.threads[a.t]);
      if s.threads[a.t].PopSwing? {
        CasMeansUnchanged(s.threads[a.t].top, s.top);
        assert s.threads[a.t].top == s.top ==> s.top.ptr in s.list;
      }
    }
  }

  // ---------------------------------------------------------------- whole runs

  predicate Legal<T>(s: State<T>, acts: seq<Action<T>>)
    decreases |acts|
  {
    acts == [] || (Enabled(s, acts[0]) && Legal(Apply(s, acts[0]), acts[1..]))
  }

  function Run<T>(s: State<T>, acts: seq<Action<T>>): State<T>
    requires Legal(s, acts)
    decreases |acts|
  {
    if acts == [] then s else Run(Apply(s, acts[0]), acts[1..])
  }

  /** The operations that a run performs on the abstract stack, in the order of the winning CASes. */
  function Effects<T>(s: State<T>, acts: seq<Action<T>>): seq<Effect<T>>
    requires Legal(s, acts)
    decreases |acts|
  {
    if acts == [] then [] else [EffectOf(s, acts[0])] + Effects(Apply(s, acts[0]), acts[1..])
  }

  /** One operation of a sequential stack. */
  predicate Sequential<T(==)>(c: seq<T>, e: Effect<T>, c': seq<T>) {
    match e
    case Silent => c' == c
    case FindsEmpty => c == [] == c'
    case Pushes(value) => c' == [value] + c
    case Pops(value) => c == [value] + c'
  }

  /** A sequential stack with these contents can show these operations and end with `last`. */
  ghost predicate Plausible<T(!new)>(contents: seq<T>, effects: seq<Effect<T>>, last: seq<T>)
    decreases |effects|
  {
    if effects == [] then contents == last
    else exists c' :: Sequential(contents, effects[0], c') && Plausible(c', effects[1..], last)
  }

  lemma {:induction false} RunIsPlausible<T(!new)>(s: State<T>, acts: seq<Action<T>>)
    requires Inv(s) && Legal(s, acts)
    ensures Inv(Run(s, acts))
    ensures Plausible(Contents(s), Effects(s, acts), Contents(Run(s, acts)))
    decreases |acts|
  {
    if acts != [] {
      var s' := Apply(s, acts[0]);
      StepRefines(s, acts[0]);
      RunIsPlausible(s', acts[1..]);
      assert Sequential(Contents(s), EffectOf(s, acts[0]), Contents(s'));
      assert Effects(s, acts)[1..] == Effects(s', acts[1..]);
    }
  }

  /** Last in, first out: in every run from an empty stack the pops return what a sequential stack
      would return for the same order of operations. */
  lemma LifoTheorem<T(!new)>(s: State<T>, acts: seq<Action<T>>)
    requires Init(s) && Legal(s, acts)
    ensures Inv(Run(s, acts))
    ensures Plausible([], Effects(s, acts), Contents(Run(s, acts)))
  {
    assert Contents(s) == [];
    RunIsPlausible(s, acts);
  }
}
