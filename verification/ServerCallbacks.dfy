/** The order of the callbacks: every session is accepted, then receives, then is released once. */
module ServerCallbacks {
  import opened Tally
  import opened Tallying
  import opened Callbacks
  import opened Server
  import opened ServerSystem
  import opened ServerSlots
  import opened SlotSteps

  // ---------------------------------------------------------------- one slot

  /** What the callbacks so far must have been for the session in a slot. */
  function Expected(x: Slot, t: Tally): Phase {
    if x.io >= 0 then if t.live >= 1 then New else Open
    else if t.initd + t.inc >= 1 then New
    else if Untold(t) >= 1 then Open
    else Closed
  }

  /** Releasers that still have to call `OnRelease`. */
  function Untold(t: Tally): nat {
    t.freeing + t.draining + t.drainTake + t.drainEnd + t.telling
  }

  function After(phase: Phase, emit: seq<Callback>): Phase {
    if emit == [] then phase else PhaseAfter(phase, emit[0].id, emit[0])
  }

  datatype Group = Other | FirstLive | Fresh | Untelling

  /** The parts of `Expected` that an agent takes part in. */
  function GroupOf(k: Kind): Group {
    match k
    case Live => FirstLive
    case Initd => Fresh
    case Inc => Fresh
    case Freeing => Untelling
    case Draining => Untelling
    case DrainTake => Untelling
    case DrainEnd => Untelling
    case Telling => Untelling
    case _ => Other
  }

  function Transit(k: Kind): nat {
    if k.Popped? || k.Initd? || k.Inc? || k.Freeing? || k.Draining? || k.DrainTake? || k.DrainEnd?
       || k.Telling? || k.Pushing? then 1 else 0
  }

  lemma GroupCounts(r: Tally, k: Kind)
    ensures var t := Raise(r, k);
            && t.live == r.live + (if GroupOf(k).FirstLive? then 1 else 0)
            && t.initd + t.inc == r.initd + r.inc + (if GroupOf(k).Fresh? then 1 else 0)
            && Untold(t) == Untold(r) + (if GroupOf(k).Untelling? then 1 else 0)
            && Accepting(t) + Releasing(t) == Accepting(r) + Releasing(r) + Transit(k)
  {
  }

  /** Agents that stay in their group change nothing. */
  lemma SameGroup(x: Slot, x': Slot, r: Tally, k: Kind, k': Kind, n: nat, n': nat)
    requires LifeInv(x, Raise(r, k), n) && LifeInv(x', Raise(r, k'), n')
    requires Transit(k) + n == Transit(k') + n' && GroupOf(k) == GroupOf(k')
    ensures Expected(x, Raise(r, k)) == Expected(x', Raise(r, k'))
  {
    hide Raise, Untold, Accepting, Releasing, GroupOf, Transit, Strong;
    GroupCounts(r, k);
    GroupCounts(r, k');
  }

  predicate Turns(pc: Pc, x: Slot, c: Choice) {
    || (pc.AcPopped? && c.Succeeds?) || pc.AcCounted? || pc.AcLive? || pc.RvShared?
    || (pc.RelCas? && x.io == 0) || pc.RlTell?
  }

  lemma QuietAccept(pc: Pc, x: Slot, c: Choice, gen: nat)
    requires InAccept(pc) && !Turns(pc, x, c)
    ensures var o := AcceptStep(pc, x, c, gen); Quiet(pc, x, o, c)
  {
  }

  predicate Quiet(pc: Pc, x: Slot, o: Outcome, c: Choice) {
    && EmitOf(pc, x) == []
    && GroupOf(Spot(o.pc)) == GroupOf(Spot(pc))
    && Transit(Spot(pc)) == Transit(Spot(o.pc)) + Pushes(pc, c)
  }

  lemma QuietRecv(pc: Pc, x: Slot, c: Choice)
    requires InRecv(pc) && !Turns(pc, x, c)
    ensures var o := RecvStep(pc, x, c); Quiet(pc, x, o, c)
  {
  }

  lemma QuietAcquire(pc: Pc, x: Slot, c: Choice)
    requires InAcquire(pc)
    ensures var o := AcquireStep(pc, x); Quiet(pc, x, o, c)
  {
  }

  lemma QuietPost(pc: Pc, x: Slot, c: Choice)
    requires InPost(pc)
    ensures var o := PostStep(pc, x); Quiet(pc, x, o, c)
  {
  }

  lemma QuietBatch(pc: Pc, x: Slot, c: Choice)
    requires InBatch(pc)
    ensures var o := BatchStep(pc, x, c); Quiet(pc, x, o, c)
  {
  }

  lemma QuietDone(pc: Pc, x: Slot, c: Choice)
    requires InDone(pc)
    ensures var o := DoneStep(pc, x); Quiet(pc, x, o, c)
  {
  }

  lemma QuietRace(pc: Pc, x: Slot, c: Choice)
    requires (pc.RelCas? || pc.RlFree? || pc.RlTell? || pc.RlPush?) && !Turns(pc, x, c)
    ensures var o := ReleaseStep(pc, x); Quiet(pc, x, o, c)
  {
  }

  lemma QuietDrain(pc: Pc, x: Slot, c: Choice)
    requires pc.RlDrain? || pc.RlTake? || pc.RlPacket? || pc.RlRestore?
    ensures var o := ReleaseStep(pc, x); Quiet(pc, x, o, c)
  {
  }

  lemma QuietRelease(pc: Pc, x: Slot, c: Choice)
    requires InRelease(pc) && !Turns(pc, x, c)
    ensures var o := ReleaseStep(pc, x); Quiet(pc, x, o, c)
  {
    hide Quiet, Turns, ReleaseStep;
    if pc.RelCas? || pc.RlFree? || pc.RlTell? || pc.RlPush? {
      QuietRace(pc, x, c);
    } else {
      QuietDrain(pc, x, c);
    }
  }

  lemma StepIsQuiet(pc: Pc, x: Slot, c: Choice, gen: nat)
    requires pc != Idle && !Turns(pc, x, c)
    ensures Quiet(pc, x, SlotStep(pc, x, c, gen), c)
  {
    hide Quiet, Turns, AcceptStep, RecvStep, AcquireStep, PostStep, BatchStep, DoneStep, ReleaseStep;
    if InAccept(pc) { QuietAccept(pc, x, c, gen); }
    else if InRecv(pc) { QuietRecv(pc, x, c); }
    else if InAcquire(pc) { QuietAcquire(pc, x, c); }
    else if InPost(pc) { QuietPost(pc, x, c); }
    else if InBatch(pc) { QuietBatch(pc, x, c); }
    else if InDone(pc) { QuietDone(pc, x, c); }
    else { QuietRelease(pc, x, c); }
  }

  /** The steps that matter, by the kinds of agent before and after them. */
  lemma TurnKinds(pc: Pc, x: Slot, c: Choice, gen: nat)
    requires Turns(pc, x, c)
    ensures var k, k' := Spot(pc), Spot(SlotStep(pc, x, c, gen).pc);
            && (pc.AcPopped? ==> k == Popped && k' == Initd)
            && (pc.AcCounted? ==> k == Inc && k' == Live)
            && (pc.AcLive? ==> k == Live && k' == Told)
            && (pc.RvShared? ==> k == Rv && k' == Rv)
            && (pc.RelCas? ==> k == Casing && k' == Freeing)
            && (pc.RlTell? ==> k == Telling && k' == Pushing)
    ensures Pushes(pc, c) == 0
  {
  }

  predicate InPhase(pc: Pc, x: Slot, x': Slot, t: Tally, t': Tally, c: Choice) {
    if pc.AcPopped? && c.Succeeds? then Expected(x, t) == Closed && Expected(x', t') == New
    else Expected(x', t') == After(Expected(x, t), EmitOf(pc, x))
  }

  /** One agent in the right place tells what the callbacks have been. */
  lemma PhaseSeen(x: Slot, t: Tally, n: nat)
    requires LifeInv(x, t, n)
    ensures t.popped >= 1 || t.pushing >= 1 ==> Expected(x, t) == Closed
    ensures t.initd >= 1 || t.inc >= 1 || t.live >= 1 ==> Expected(x, t) == New
    ensures t.told >= 1 || t.rv >= 1 || t.telling >= 1 || t.freeing >= 1 ==> Expected(x, t) == Open
    ensures x.io >= 0 && t.live == 0 ==> Expected(x, t) == Open
    ensures t.freeing >= 1 ==> t.live == 0
  {
  }

  lemma KindSeen(x: Slot, r: Tally, k: Kind, n: nat)
    requires LifeInv(x, Raise(r, k), n)
    ensures k == Popped || k == Pushing ==> Expected(x, Raise(r, k)) == Closed
    ensures k == Initd || k == Inc || k == Live ==> Expected(x, Raise(r, k)) == New
    ensures k == Told || k == Rv || k == Telling || k == Freeing ==> Expected(x, Raise(r, k)) == Open
    ensures k == Casing && x.io == 0 && r.live == 0 ==> Expected(x, Raise(r, k)) == Open
    ensures k == Freeing ==> r.live == 0
  {
    hide Raise, LifeInv, Expected;
    RaiseFields(r, k);
    PhaseSeen(x, Raise(r, k), n);
  }

  lemma TurnsInPhase(pc: Pc, x: Slot, x': Slot, r: Tally, n: nat, c: Choice, gen: nat)
    requires Turns(pc, x, c)
    requires LifeInv(x, Raise(r, Spot(pc)), n)
    requires LifeInv(x', Raise(r, Spot(SlotStep(pc, x, c, gen).pc)), n)
    ensures InPhase(pc, x, x', Raise(r, Spot(pc)), Raise(r, Spot(SlotStep(pc, x, c, gen).pc)), c)
  {
    hide Raise, SlotStep, Spot, LifeInv, Expected;
    TurnKinds(pc, x, c, gen);
    KindSeen(x, r, Spot(pc), n);
    KindSeen(x', r, Spot(SlotStep(pc, x, c, gen).pc), n);
  }

  lemma StepInPhase(pc: Pc, x: Slot, r: Tally, n: nat, c: Choice, gen: nat)
    requires pc != Idle && LifeInv(x, Raise(r, Spot(pc)), n)
    requires LifeInv(SlotStep(pc, x, c, gen).slot, Raise(r, Spot(SlotStep(pc, x, c, gen).pc)), n + Pushes(pc, c))
    ensures InPhase(pc, x, SlotStep(pc, x, c, gen).slot,
                    Raise(r, Spot(pc)), Raise(r, Spot(SlotStep(pc, x, c, gen).pc)), c)
  {
    hide Raise, SlotStep, Spot, LifeInv, EmitOf, Expected, Transit, GroupOf, Pushes;
    var o := SlotStep(pc, x, c, gen);
    if Turns(pc, x, c) {
      TurnKinds(pc, x, c, gen);
      TurnsInPhase(pc, x, o.slot, r, n, c, gen);
    } else {
      StepIsQuiet(pc, x, c, gen);
      SameGroup(x, o.slot, r, Spot(pc), Spot(o.pc), n, n + Pushes(pc, c));
    }
  }

  lemma BeginInPhase(b: Begin, i: nat, x: Slot, r: Tally, n: nat, n': nat)
    requires LifeInv(x, r, n) && LifeInv(BeginStep(b, i, x).slot, Raise(r, Spot(BeginStep(b, i, x).pc)), n')
    requires n == if b.Accept? then n' + 1 else n'
    ensures Expected(BeginStep(b, i, x).slot, Raise(r, Spot(BeginStep(b, i, x).pc))) == Expected(x, r)
  {
    hide Raise, LifeInv, Expected;
    NowhereRaisesNothing(r);
    SameGroup(x, BeginStep(b, i, x).slot, r, Nowhere, Spot(BeginStep(b, i, x).pc), n, n');
  }

  // ---------------------------------------------------------------- the whole server

  /** The session of slot `i` stands where the agents on the slot say. */
  ghost predicate SlotLog(s: State, i: nat)
    requires i < |s.slots|
  {
    var x := s.slots[i];
    var phase := Expected(x, TallyOf(s.agents, i));
    if x.sid == 0 then phase == Closed
    else phase == PhaseOf(s.log, x.sid) && x.sid % INDICES == i && 1 <= x.sid / INDICES <= s.gen
  }

  /** Only the session in its slot is open; an ID that was not made yet has seen nothing. */
  ghost predicate IdLog(s: State, id: nat) {
    && PhaseOf(s.log, id) != Broken
    && (PhaseOf(s.log, id) == Open ==> id % INDICES < |s.slots| && s.slots[id % INDICES].sid == id)
    && (id / INDICES == 0 || id / INDICES > s.gen ==> PhaseOf(s.log, id) == New)
  }

  ghost predicate LogInv(s: State) {
    && (forall i :: 0 <= i < |s.slots| ==> SlotLog(s, i))
    && (forall id: nat :: IdLog(s, id))
  }

  /** The other slots are not touched. */
  ghost predicate SameElsewhere(s: State, s': State, i: nat) {
    && |s'.slots| == |s.slots| && i < |s.slots|
    && (forall j: nat :: j < |s.slots| && j != i ==>
          s'.slots[j] == s.slots[j] && TallyOf(s'.agents, j) == TallyOf(s.agents, j))
  }

  lemma LogGrows(s: State, s': State, i: nat, emit: seq<Callback>)
    requires LogInv(s) && SameElsewhere(s, s', i)
    requires s'.slots[i].sid == s.slots[i].sid && s'.gen == s.gen && s'.log == s.log + emit
    requires |emit| <= 1 && (emit != [] ==> emit[0].id == s.slots[i].sid)
    requires Expected(s'.slots[i], TallyOf(s'.agents, i))
             == After(Expected(s.slots[i], TallyOf(s.agents, i)), emit)
    ensures LogInv(s')
  {
    hide Expected, TallyOf;
    var sid := s.slots[i].sid;
    assert SlotLog(s, i);
    if emit == [] {
      assert s'.log == s.log;
    } else {
      assert emit == [emit[0]];
      ExpectedIsFine(s'.slots[i], TallyOf(s'.agents, i));
      assert sid != 0;
    }
    forall id: nat ensures PhaseOf(s'.log, id) == if id == sid then After(PhaseOf(s.log, id), emit)
      else PhaseOf(s.log, id) {
      if emit != [] { PhaseOfAppend(s.log, emit[0], id); }
    }
    forall j: nat | j < |s'.slots| ensures SlotLog(s', j) {
      assert SlotLog(s, j);
    }
    forall id: nat ensures IdLog(s', id) {
      assert IdLog(s, id);
      ExpectedIsFine(s'.slots[i], TallyOf(s'.agents, i));
    }
  }

  lemma ExpectedIsFine(x: Slot, t: Tally)
    ensures Expected(x, t) != Broken
  {
  }

  /** A new session gets an ID that nobody has seen, and the one it replaces has been released. */
  lemma LogRenames(s: State, s': State, i: nat)
    requires LogInv(s) && SameElsewhere(s, s', i) && |s.slots| <= INDICES
    requires s'.slots[i].sid == s'.gen * INDICES + i && s'.gen == s.gen + 1 && s'.log == s.log
    requires Expected(s.slots[i], TallyOf(s.agents, i)) == Closed
    requires Expected(s'.slots[i], TallyOf(s'.agents, i)) == New
    ensures LogInv(s')
    ensures forall j: nat :: j < |s.slots| ==> s.slots[j].sid != s'.slots[i].sid
    ensures PhaseOf(s.log, s'.slots[i].sid) == New
    ensures s.slots[i].sid == 0 || PhaseOf(s.log, s.slots[i].sid) == Closed
  {
    hide Expected, TallyOf, PhaseOf;
    var id' := s'.slots[i].sid;
    DecodeId(s'.gen, i);
    assert IdLog(s, id');
    assert SlotLog(s, i);
    forall j: nat | j < |s'.slots| ensures SlotLog(s', j) && s.slots[j].sid != id' {
      assert SlotLog(s, j);
    }
    forall id: nat ensures IdLog(s', id) {
      assert IdLog(s, id);
    }
  }

  /** A session ID decodes to its number and its slot. */
  lemma DecodeId(gen: nat, i: nat)
    requires i < INDICES
    ensures (gen * INDICES + i) / INDICES == gen && (gen * INDICES + i) % INDICES == i
  {
  }

  lemma OthersStay(s: State, s': State, a: nat, i: nat, x': Slot, pc': Pc)
    requires a < |s.agents| && i < |s.slots|
    requires s.agents[a] == Idle || s.agents[a].i == i
    requires pc' == Idle || pc'.i == i
    requires s'.agents == s.agents[a := pc'] && s'.slots == s.slots[i := x']
    ensures SameElsewhere(s, s', i)
  {
    hide TallyOf, Spot, Raise;
    forall j: nat | j < |s.slots| && j != i ensures TallyOf(s'.agents, j) == TallyOf(s.agents, j) {
      var r := Apart(s.agents, a, j, pc');
    }
  }

  lemma ContinueKeepsLog(s: State, a: nat, c: Choice)
    requires SlotsInv(s) && IdInv(s) && LogInv(s) && Enabled(s, Continue(a, c))
    ensures LogInv(Continued(s, a, c))
    ensures NewSession(s, Continued(s, a, c), s.agents[a].i)
  {
    hide SlotInv, Raise, TallyOf, SlotStep, OpOf, EmitOf, Stacked, Spot, Expected, LogInv, LifeInv, IdInv, PhaseOf;
    var pc, i := s.agents[a], s.agents[a].i;
    var x := s.slots[i];
    var o := SlotStep(pc, x, c, s.gen);
    var s' := Continued(s, a, c);
    CountKeepsSlots(s, OpOf(pc, x, c));
    StepIsProper(pc, x, c, s.gen);
    ContinueKeepsSlots(s, a, c);
    OthersStay(s, s', a, i, o.slot, o.pc);
    var r := MovesOne(s, a, i, o.pc);
    SpotHere(pc, i);
    SpotHere(o.pc, i);
    PushStacks(s.stack, i, i);
    InOrder(s, i);
    InOrder(s', i);
    PushesWhen(pc, c);
    StepInPhase(pc, x, r, Stacked(s.stack, i), c, s.gen);
    if pc.AcPopped? && c.Succeeds? {
      Renames(pc, x, s.gen, c);
      LogRenames(s, s', i);
    } else {
      EmitsOwnId(s, a, c);
      LogGrows(s, s', i, EmitOf(pc, x));
    }
  }

  /** The session in slot `i` is the old one, or a new one in the place of a released one. */
  ghost predicate NewSession(s: State, s': State, i: nat) {
    && i < |s.slots| == |s'.slots|
    && (s'.slots[i].sid != s.slots[i].sid ==>
          && (forall j: nat :: j < |s.slots| ==> s.slots[j].sid != s'.slots[i].sid)
          && PhaseOf(s.log, s'.slots[i].sid) == New
          && (s.slots[i].sid == 0 || PhaseOf(s.log, s.slots[i].sid) == Closed))
  }

  lemma InOrder(s: State, i: nat)
    requires SlotsInv(s) && i < |s.slots|
    ensures LifeInv(s.slots[i], TallyOf(s.agents, i), Stacked(s.stack, i))
  {
    hide LifeInv, CountInv, SendInv, BatchInv, QueueInv, OrderInv, TallyOf;
  }

  lemma PushesWhen(pc: Pc, c: Choice)
    ensures Pushes(pc, c) <= 1
  {
  }

  lemma Renames(pc: Pc, x: Slot, gen: nat, c: Choice)
    requires pc.AcPopped? && c.Succeeds?
    ensures SlotStep(pc, x, c, gen).slot.sid == (gen + 1) * INDICES + pc.i && EmitOf(pc, x) == []
  {
  }

  lemma EmitsOwnId(s: State, a: nat, c: Choice)
    requires IdInv(s) && Enabled(s, Continue(a, c)) && !(s.agents[a].AcPopped? && c.Succeeds?)
    ensures var pc, x := s.agents[a], s.slots[s.agents[a].i];
            && |EmitOf(pc, x)| <= 1 && (EmitOf(pc, x) != [] ==> EmitOf(pc, x)[0].id == x.sid)
            && SlotStep(pc, x, c, s.gen).slot.sid == x.sid
  {
    hide SlotStep;
    assert KnowsRight(s, s.agents[a]);
    KeepsId(s.agents[a], s.slots[s.agents[a].i], c, s.gen);
  }

  lemma KeepsId(pc: Pc, x: Slot, c: Choice, gen: nat)
    requires pc != Idle && !(pc.AcPopped? && c.Succeeds?)
    ensures SlotStep(pc, x, c, gen).slot.sid == x.sid
  {
    hide SlotStep;
    if pc.AcPopped? {
      RefusedKeepsId(pc, x, c, gen);
    } else {
      StepIsProper(pc, x, c, gen);
    }
  }

  lemma RefusedKeepsId(pc: Pc, x: Slot, c: Choice, gen: nat)
    requires pc.AcPopped? && !c.Succeeds?
    ensures SlotStep(pc, x, c, gen).slot.sid == x.sid
  {
  }

  lemma StartKeepsLog(s: State, a: nat, i: nat, b: Begin)
    requires SlotsInv(s) && LogInv(s) && Enabled(s, Start(a, i, b))
    ensures LogInv(Started(s, a, i, b))
  {
    hide SlotInv, Raise, TallyOf, Stacked, Spot, Expected, LogInv, LifeInv;
    var x := s.slots[i];
    var o := BeginStep(b, i, x);
    var s' := Started(s, a, i, b);
    StartKeepsSlots(s, a, i, b);
    OthersStay(s, s', a, i, o.slot, o.pc);
    var r := MovesOne(s, a, i, o.pc);
    SpotHere(o.pc, i);
    SpotHere(Idle, i);
    IdleSpot();
    NowhereRaisesNothing(r);
    if b.Accept? {
      PopStacks(s.stack, i);
    }
    InOrder(s, i);
    InOrder(s', i);
    BeginInPhase(b, i, x, r, Stacked(s.stack, i), Stacked(s'.stack, i));
    assert s'.log == s.log + [];
    LogGrows(s, s', i, []);
  }

  lemma StepKeepsLog(s: State, act: Action)
    requires SlotsInv(s) && IdInv(s) && LogInv(s) && Enabled(s, act)
    ensures LogInv(Apply(s, act))
    ensures forall i: nat :: i < |s.slots| ==> NewSession(s, Apply(s, act), i)
  {
    hide SlotsInv, IdInv, TallyOf, Expected, PhaseOf, SlotStep, OpOf, EmitOf, LogInv;
    match act
    case Start(a, i, b) =>
      StartKeepsLog(s, a, i, b);
    case Continue(a, c) =>
      ContinueKeepsLog(s, a, c);
      CountKeepsSlots(s, OpOf(s.agents[a], s.slots[s.agents[a].i], c));
    case _ =>
      AppKeepsLog(s, act);
  }

  lemma AppKeepsLog(s: State, act: Action)
    requires LogInv(s) && Enabled(s, act) && (act.AppAlloc? || act.AppFree? || act.AppTakesJob?)
    ensures LogInv(Apply(s, act)) && Apply(s, act).slots == s.slots
  {
    hide TallyOf, Expected, PhaseOf;
    var s' := Apply(s, act);
    forall i: nat | i < |s'.slots| ensures SlotLog(s', i) {
      assert SlotLog(s, i);
    }
    forall id: nat ensures IdLog(s', id) {
      assert IdLog(s, id);
    }
  }

  lemma InitLogInv(s: State)
    requires Init(s)
    ensures LogInv(s)
  {
    hide TallyOf;
    forall i: nat | i < |s.slots| ensures SlotLog(s, i) {
      IdleCountsNothing(s.agents, i);
    }
  }
}
