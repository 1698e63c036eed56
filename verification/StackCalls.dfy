/** What a call of `Push` or `Pop` comes to: what it does and answers, why it may have to try again, and
    that it ends when nobody interferes. */
module StackCalls {
  import opened TaggedPointer
  import opened TaggedStack

  // ---------------------------------------------------------------- what calls do

  /** What a `Pop` answers: `false`, or `true` with a value. */
  datatype Answer<T> = Empty | Got(value: T)

  predicate InPop<T>(l: Local<T>) {
    l.PopRead? || l.PopLink? || l.PopSwing? || l.PopData?
  }

  /** The argument of a `Push` that has not put its node on the stack yet. */
  function Unpushed<T>(l: Local<T>): seq<T> {
    match l
    case PushData(value, _) => [value]
    case PushRead(value, _) => [value]
    case PushLink(value, _, _) => [value]
    case PushSwing(value, _, _) => [value]
    case _ => []
  }

  /** The answer of a `Pop` that has taken its node. */
  function Taken<T>(s: State<T>, l: Local<T>): seq<Answer<T>> {
    if l.PopData? && l.node in s.nodes then [Got(s.nodes[l.node].data)] else []
  }

  /** The `Push` that an action begins. */
  function Called<T>(a: Action<T>, t: nat): seq<T> {
    if a.StartPush? && a.t == t then [a.value] else []
  }

  /** What the calls of `t` do to the abstract stack. */
  function PushesAs<T>(s: State<T>, a: Action<T>, t: nat): seq<T>
    requires Enabled(s, a)
  {
    if a.Continue? && a.t == t && EffectOf(s, a).Pushes? then [EffectOf(s, a).value] else []
  }

  function PopsAs<T>(s: State<T>, a: Action<T>, t: nat): seq<Answer<T>>
    requires Enabled(s, a)
  {
    if !a.Continue? || a.t != t then []
    else match EffectOf(s, a) case Pops(value) => [Got(value)] case FindsEmpty => [Empty] case _ => []
  }

  /** What a `Pop` of `t` answers with its last step. */
  function Answers<T>(s: State<T>, a: Action<T>, t: nat): seq<Answer<T>>
    requires t < |s.threads| && Enabled(s, a)
  {
    if !a.Continue? || a.t != t || !InPop(s.threads[t]) || |Apply(s, a).threads| != |s.threads|
       || !Apply(s, a).threads[t].Idle? then []
    else if s.threads[t].PopData? then Taken(s, s.threads[t])
    else [Empty]
  }

  /** `Pop` answers `false` only when the stack is empty at that moment, however many exchanges it has
      lost. */
  lemma FalseMeansEmpty<T>(s: State<T>, t: nat)
    requires Inv(s) && Enabled(s, Continue(t))
    requires s.threads[t].PopRead? || s.threads[t].PopLink? || s.threads[t].PopSwing?
    requires |Apply(s, Continue(t)).threads| == |s.threads| && Apply(s, Continue(t)).threads[t].Idle?
    ensures Contents(s) == [] && EffectOf(s, Continue(t)).FindsEmpty?
  {
    PopStepKeepsInv(s, t);
  }

  lemma OneThreadMoves<T>(s: State<T>, a: Action<T>, t: nat)
    requires Enabled(s, a) && t < |s.threads|
    ensures |Apply(s, a).threads| == |s.threads|
    ensures !((a.StartPush? || a.StartPop? || a.Continue?) && a.t == t) ==> Apply(s, a).threads[t] == s.threads[t]
  {
  }

  lemma Accesses<T>(s: State<T>, t: nat)
    requires Inv(s) && Enabled(s, Continue(t))
    ensures Accessed(s.threads[t]) <= s.nodes.Keys && Inv(Step(s, t)) && LocalInv(s, s.threads[t])
  {
    hide Accessed, Step;
    if InPop(s.threads[t]) { PopStepKeepsInv(s, t); } else { PushStepKeepsInv(s, t); }
  }

  lemma PusherMoves<T>(s: State<T>, t: nat)
    requires Enabled(s, Continue(t)) && Accessed(s.threads[t]) <= s.nodes.Keys && !InPop(s.threads[t])
    ensures |Step(s, t).threads| == |s.threads|
    ensures Unpushed(s.threads[t]) == PushesAs(s, Continue(t), t) + Unpushed(Step(s, t).threads[t])
    ensures PopsAs(s, Continue(t), t) == Answers(s, Continue(t), t) == []
    ensures !InPop(Step(s, t).threads[t])
  {
    hide Accessed;
    if s.threads[t].PushSwing? { SwingMoves(s, t); } else { PreparerMoves(s, t); }
    hide Step;
  }

  lemma SwingMoves<T>(s: State<T>, t: nat)
    requires Enabled(s, Continue(t)) && Accessed(s.threads[t]) <= s.nodes.Keys && s.threads[t].PushSwing?
    ensures |Step(s, t).threads| == |s.threads| && (Step(s, t).threads[t].Idle? || Step(s, t).threads[t].PushRead?)
    ensures Unpushed(s.threads[t]) == PushesAs(s, Continue(t), t) + Unpushed(Step(s, t).threads[t])
    ensures PopsAs(s, Continue(t), t) == []
  {
  }

  lemma PreparerMoves<T>(s: State<T>, t: nat)
    requires Enabled(s, Continue(t)) && Accessed(s.threads[t]) <= s.nodes.Keys
    requires s.threads[t].PushData? || s.threads[t].PushRead? || s.threads[t].PushLink?
    ensures |Step(s, t).threads| == |s.threads| && (Step(s, t).threads[t].PushRead?
            || Step(s, t).threads[t].PushLink? || Step(s, t).threads[t].PushSwing?)
    ensures Unpushed(s.threads[t]) == Unpushed(Step(s, t).threads[t])
    ensures PushesAs(s, Continue(t), t) == [] && PopsAs(s, Continue(t), t) == []
  {
  }

  lemma PopperMoves<T>(s: State<T>, t: nat)
    requires Enabled(s, Continue(t)) && Accessed(s.threads[t]) <= s.nodes.Keys && InPop(s.threads[t])
    ensures |Step(s, t).threads| == |s.threads|
    ensures Unpushed(s.threads[t]) == [] == PushesAs(s, Continue(t), t) + Unpushed(Step(s, t).threads[t])
    ensures InPop(Step(s, t).threads[t]) <==> Answers(s, Continue(t), t) == []
    ensures |Answers(s, Continue(t), t)| <= 1
    ensures Taken(s, s.threads[t]) + PopsAs(s, Continue(t), t)
            == Answers(s, Continue(t), t) + Taken(Step(s, t), Step(s, t).threads[t])
  {
  }

  /** A thread that waits keeps what it has taken. */
  lemma WaiterKeeps<T>(s: State<T>, a: Action<T>, t: nat)
    requires Inv(s) && Enabled(s, a) && t < |s.threads| && !((a.StartPush? || a.StartPop? || a.Continue?) && a.t == t)
    ensures |Apply(s, a).threads| == |s.threads| && Apply(s, a).threads[t] == s.threads[t]
    ensures Taken(Apply(s, a), Apply(s, a).threads[t]) == Taken(s, s.threads[t])
  {
    hide Inv, Apply, Enabled;
    OneThreadMoves(s, a, t);
    if s.threads[t].PopData? {
      PoppedNodeIsPrivate(s, a, t, s.threads[t].node);
    }
  }

  /** Whether a `Pop` is on its way. */
  function Popping<T>(l: Local<T>): nat {
    if InPop(l) then 1 else 0
  }

  function Popped<T>(a: Action<T>, t: nat): nat {
    if a.StartPop? && a.t == t then 1 else 0
  }

  /** How one step moves the calls of `t` on. */
  ghost predicate Moves<T>(s: State<T>, a: Action<T>, t: nat)
    requires Enabled(s, a) && t < |s.threads|
  {
    var z := Apply(s, a);
    && |z.threads| == |s.threads|
    && Unpushed(s.threads[t]) + Called(a, t) == PushesAs(s, a, t) + Unpushed(z.threads[t])
    && Taken(s, s.threads[t]) + PopsAs(s, a, t) == Answers(s, a, t) + Taken(z, z.threads[t])
    && Popping(s.threads[t]) + Popped(a, t) == |Answers(s, a, t)| + Popping(z.threads[t])
  }

  lemma ContinueMoves<T>(s: State<T>, t: nat)
    requires Inv(s) && Enabled(s, Continue(t))
    ensures Moves(s, Continue(t), t)
  {
    hide Inv, Step, Accessed, InPop, Taken, Unpushed, PushesAs, PopsAs, Answers;
    Accesses(s, t);
    if InPop(s.threads[t]) {
      PopperMoves(s, t);
    } else {
      PusherMoves(s, t);
      NoneTaken(s, t);
      NoneTaken(Step(s, t), t);
    }
  }

  lemma NoneTaken<T>(s: State<T>, t: nat)
    requires t < |s.threads|
    ensures !InPop(s.threads[t]) ==> Taken(s, s.threads[t]) == []
  {
  }

  lemma StartMoves<T>(s: State<T>, a: Action<T>, t: nat)
    requires Enabled(s, a) && t < |s.threads| && (a.StartPush? || a.StartPop?) && a.t == t
    ensures Moves(s, a, t)
  {
  }

  lemma CallsMove<T>(s: State<T>, a: Action<T>, t: nat)
    requires Inv(s) && Enabled(s, a) && t < |s.threads|
    ensures Moves(s, a, t)
  {
    if a.Continue? && a.t == t {
      hide Inv, Moves, Enabled;
      ContinueMoves(s, t);
    } else if (a.StartPush? || a.StartPop?) && a.t == t {
      hide Inv, Moves, Enabled;
      StartMoves(s, a, t);
    } else {
      hide Inv, Apply, Enabled, Taken, Unpushed;
      WaiterKeeps(s, a, t);
    }
  }

  // ---------------------------------------------------------------- whole runs

  function CalledIn<T>(acts: seq<Action<T>>, t: nat): seq<T> {
    if acts == [] then [] else Called(acts[0], t) + CalledIn(acts[1..], t)
  }

  function PoppedIn<T>(acts: seq<Action<T>>, t: nat): nat {
    if acts == [] then 0 else Popped(acts[0], t) + PoppedIn(acts[1..], t)
  }

  function PushedBy<T>(s: State<T>, acts: seq<Action<T>>, t: nat): seq<T>
    requires Legal(s, acts)
    decreases |acts|
  {
    if acts == [] then [] else PushesAs(s, acts[0], t) + PushedBy(Apply(s, acts[0]), acts[1..], t)
  }

  function PoppedBy<T>(s: State<T>, acts: seq<Action<T>>, t: nat): seq<Answer<T>>
    requires Legal(s, acts)
    decreases |acts|
  {
    if acts == [] then [] else PopsAs(s, acts[0], t) + PoppedBy(Apply(s, acts[0]), acts[1..], t)
  }

  function AnswersIn<T>(s: State<T>, acts: seq<Action<T>>, t: nat): seq<Answer<T>>
    requires t < |s.threads| && Legal(s, acts)
    decreases |acts|
  {
    if acts == [] then []
    else
      Answers(s, acts[0], t)
      + if |Apply(s, acts[0]).threads| == |s.threads| then AnswersIn(Apply(s, acts[0]), acts[1..], t) else []
  }

  lemma Splice<T>(c: seq<T>, a: seq<T>, r: seq<T>, c': seq<T>, restA: seq<T>, restR: seq<T>, last: seq<T>)
    requires c + a == r + c' && c' + restA == restR + last
    ensures c + (a + restA) == (r + restR) + last
  {
    calc {
      c + (a + restA);
      (c + a) + restA;
      r + (c' + restA);
      (r + restR) + last;
    }
  }

  /** Each `Push` puts its argument on the stack exactly once; each `Pop` answers exactly once, with the
      value of exactly one pop or, where it finds the stack empty, with `false`, in the same order. */
  lemma {:induction false} CallsTheorem<T>(s: State<T>, acts: seq<Action<T>>, t: nat)
    requires Inv(s) && Legal(s, acts) && t < |s.threads|
    ensures var z := Run(s, acts);
            && |z.threads| == |s.threads|
            && Unpushed(s.threads[t]) + CalledIn(acts, t) == PushedBy(s, acts, t) + Unpushed(z.threads[t])
            && Taken(s, s.threads[t]) + PoppedBy(s, acts, t) == AnswersIn(s, acts, t) + Taken(z, z.threads[t])
            && Popping(s.threads[t]) + PoppedIn(acts, t) == |AnswersIn(s, acts, t)| + Popping(z.threads[t])
    decreases |acts|
  {
    hide Inv, Enabled, Apply, Unpushed, Taken, Popping, Called, Popped, PushesAs, PopsAs, Answers;
    if acts != [] {
      var a, s' := acts[0], Apply(s, acts[0]);
      ApplyKeepsInv(s, a);
      CallsMove(s, a, t);
      CallsTheorem(s', acts[1..], t);
      var z := Run(s, acts);
      Splice(Unpushed(s.threads[t]), Called(a, t), PushesAs(s, a, t), Unpushed(s'.threads[t]),
             CalledIn(acts[1..], t), PushedBy(s', acts[1..], t), Unpushed(z.threads[t]));
      Splice(Taken(s, s.threads[t]), PopsAs(s, a, t), Answers(s, a, t), Taken(s', s'.threads[t]),
             PoppedBy(s', acts[1..], t), AnswersIn(s', acts[1..], t), Taken(z, z.threads[t]));
    }
  }

  // ---------------------------------------------------------------- trying again

  /** A turn has to be repeated only if another thread has written the top since this one read it. */
  lemma RetryMeansBeaten<T>(s: State<T>, t: nat)
    requires Inv(s) && Enabled(s, Continue(t)) && !s.threads[t].PushData?
    requires |Apply(s, Continue(t)).threads| == |s.threads|
    requires Apply(s, Continue(t)).threads[t].PushRead? || Apply(s, Continue(t)).threads[t].PopRead?
    ensures (s.threads[t].PushSwing? || s.threads[t].PopSwing?) && s.threads[t].top != s.top
  {
    hide Inv, Step, Accessed;
    Accesses(s, t);
    if InPop(s.threads[t]) { PopBeaten(s, t); } else { PushBeaten(s, t); }
  }

  lemma PushBeaten<T>(s: State<T>, t: nat)
    requires Enabled(s, Continue(t)) && Accessed(s.threads[t]) <= s.nodes.Keys && !InPop(s.threads[t])
    requires |Step(s, t).threads| == |s.threads| && !s.threads[t].PushData?
    ensures Step(s, t).threads[t].PushRead? ==> s.threads[t].PushSwing? && s.threads[t].top != s.top
    ensures !Step(s, t).threads[t].PopRead?
  {
  }

  lemma PopBeaten<T>(s: State<T>, t: nat)
    requires Enabled(s, Continue(t)) && Accessed(s.threads[t]) <= s.nodes.Keys && InPop(s.threads[t])
    requires |Step(s, t).threads| == |s.threads|
    ensures Step(s, t).threads[t].PopRead? ==> s.threads[t].PopSwing? && s.threads[t].top != s.top
    ensures !Step(s, t).threads[t].PushRead?
  {
  }

  /** How many more steps a call takes at most if nobody else moves. */
  function Left<T>(s: State<T>, l: Local<T>): nat {
    match l
    case Idle => 0
    case PushData(_, _) => 4
    case PushRead(_, _) => 3
    case PushLink(_, _, top) => if top == s.top then 2 else 5
    case PushSwing(_, _, top) => if top == s.top then 1 else 4
    case PopRead => 4
    case PopLink(top) => if top == s.top then 3 else 6
    case PopSwing(top, _) => if top == s.top then 2 else 5
    case PopData(_) => 1
  }

  /** Whatever the snapshot of a thread, each step that it makes while nobody interferes brings its call
      nearer to its end. */
  lemma StepNears<T>(s: State<T>, t: nat)
    requires Inv(s) && Enabled(s, Continue(t))
    ensures var z := Apply(s, Continue(t)); |z.threads| == |s.threads| && Left(z, z.threads[t]) < Left(s, s.threads[t])
  {
    hide Inv, Step, Left, Accessed, LocalInv;
    Accesses(s, t);
    if InPop(s.threads[t]) { PopNears(s, t); } else { PushNears(s, t); }
  }

  lemma PushNears<T>(s: State<T>, t: nat)
    requires Enabled(s, Continue(t)) && Accessed(s.threads[t]) <= s.nodes.Keys && LocalInv(s, s.threads[t])
    requires !InPop(s.threads[t])
    ensures var z := Step(s, t); |z.threads| == |s.threads| && Left(z, z.threads[t]) < Left(s, s.threads[t])
  {
    if s.threads[t].PushSwing? {
      CasMeansUnchanged(s.threads[t].top, s.top);
    }
  }

  lemma PopNears<T>(s: State<T>, t: nat)
    requires Enabled(s, Continue(t)) && Accessed(s.threads[t]) <= s.nodes.Keys && LocalInv(s, s.threads[t])
    requires InPop(s.threads[t])
    ensures var z := Step(s, t); |z.threads| == |s.threads| && Left(z, z.threads[t]) < Left(s, s.threads[t])
  {
    if s.threads[t].PopSwing? {
      CasMeansUnchanged(s.threads[t].top, s.top);
    }
  }

  lemma LeftIsBounded<T>(s: State<T>, l: Local<T>)
    ensures Left(s, l) <= 6 && (Left(s, l) == 0 <==> l.Idle?)
  {
  }

  /** A call that runs alone, from whatever point and with whatever snapshot, is over after at most 6
      steps. */
  lemma {:induction false} AloneItEnds<T>(s: State<T>, acts: seq<Action<T>>, t: nat)
    requires Inv(s) && Legal(s, acts) && t < |s.threads| && forall i :: 0 <= i < |acts| ==> acts[i] == Continue(t)
    ensures |Run(s, acts).threads| == |s.threads|
    ensures |acts| + Left(Run(s, acts), Run(s, acts).threads[t]) <= Left(s, s.threads[t]) <= 6
    ensures |acts| == 6 ==> Run(s, acts).threads[t].Idle?
    decreases |acts|
  {
    hide Inv, Enabled, Apply, Left;
    LeftIsBounded(s, s.threads[t]);
    if acts != [] {
      var s' := Apply(s, acts[0]);
      ApplyKeepsInv(s, acts[0]);
      StepNears(s, t);
      assert forall i :: 0 <= i < |acts| - 1 ==> acts[1..][i] == acts[i + 1];
      AloneItEnds(s', acts[1..], t);
    }
    LeftIsBounded(Run(s, acts), Run(s, acts).threads[t]);
  }
}
