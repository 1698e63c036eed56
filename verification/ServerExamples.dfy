/** A run of the server from its start to the end of a session. */
module ServerExamples {
  import opened Callbacks
  import opened Server
  import opened ServerSystem
  import opened ServerTheorems
  import opened ServerCalls

  const ID: nat := 65536

  /** A server with one slot and one agent, before anything has happened. */
  function Fresh(): State {
    State([Slot(-RELEASE, 0, false, [], 0, [], 0, 0, 0, 0, false, false, false, [], [])], [Idle], [0], 0, map[], {},
          multiset{}, [], 0, false)
  }

  /** A run that has come to `s`. */
  ghost predicate Came(acts: seq<Action>, s: State) {
    Init(Fresh()) && Legal(Fresh(), acts) && Run(Fresh(), acts) == s
  }

  lemma FreshCame()
    ensures Came([], Fresh())
  {
    assert [0] == seq(1, i => i);
  }

  lemma Next(acts: seq<Action>, s: State, act: Action) returns (acts': seq<Action>, s': State)
    requires Came(acts, s) && Enabled(s, act)
    ensures Came(acts', s') && s' == Apply(s, act)
  {
    hide Init, Enabled, Apply, Fresh;
    RunSnoc(Fresh(), acts, act);
    acts', s' := acts + [act], Apply(s, act);
  }

  /** The agent is at `pc`, and the slot is `x`. */
  function On(s: State, x: Slot, pc: Pc): State {
    s.(slots := [x], agents := [pc])
  }

  /** The agent takes a step, which makes `s'` of the rest of the server. */
  lemma Does(acts: seq<Action>, s: State, x: Slot, pc: Pc, c: Choice, s': State, x': Slot, pc': Pc)
    returns (acts': seq<Action>)
    requires Came(acts, On(s, x, pc)) && pc != Idle && pc.i == 0 && (c.Frame? ==> c.p !in s.inUse)
    requires SlotStep(pc, x, c, s.gen) == Outcome(x', pc', true) && Pushes(pc, c) == 0 && IdsMade(pc, c) == 0
    requires var z := Count(s, OpOf(pc, x, c)).(log := s.log + EmitOf(pc, x)); s' == z && !z.broken
    ensures Came(acts', On(s', x', pc'))
  {
    hide Came, SlotStep, OpOf, EmitOf, IdsMade, Pushes;
    var z;
    acts', z := Next(acts, On(s, x, pc), Continue(0, c));
    assert [x][0 := x'] == [x'] && [pc][0 := pc'] == [pc'];
  }

  /** A step that concerns the slot only. */
  lemma Goes(acts: seq<Action>, s: State, x: Slot, pc: Pc, c: Choice, x': Slot, pc': Pc) returns (acts': seq<Action>)
    requires Came(acts, On(s, x, pc)) && pc != Idle && pc.i == 0 && !s.broken
    requires SlotStep(pc, x, c, s.gen) == Outcome(x', pc', true) && !c.Frame?
    requires OpOf(pc, x, c).Keep? && EmitOf(pc, x) == [] && Pushes(pc, c) == 0 && IdsMade(pc, c) == 0
    ensures Came(acts', On(s, x', pc'))
  {
    hide Came, SlotStep, OpOf, EmitOf, IdsMade, Pushes, On;
    assert s.log + [] == s.log;
    acts' := Does(acts, s, x, pc, c, s, x', pc');
  }

  /** A completion is taken up. */
  lemma Completes(acts: seq<Action>, s: State, x: Slot, b: Begin, x': Slot, pc': Pc) returns (acts': seq<Action>)
    requires Came(acts, On(s, x, Idle)) && !s.broken && BeginStep(b, 0, x) == Outcome(x', pc', true)
    requires (b.RecvDone? && x.recvOut > 0) || (b.SendDone? && x.sendOut > 0)
    ensures Came(acts', On(s, x', pc'))
  {
    hide Came, BeginStep;
    var z;
    acts', z := Next(acts, On(s, x, Idle), Start(0, 0, b));
    assert [x][0 := x'] == [x'] && [Idle][0 := pc'] == [pc'];
  }

  // ---------------------------------------------------------------- a session from its accept to its release

  /** The slot of the session while nothing is sent. */
  function Quiet(io: int, recvOut: nat, ended: bool): Slot {
    Slot(io, ID, false, [], 0, [], 0, 0, recvOut, 0, false, ended, false, [], [])
  }

  /** What has become of everything but the slot and the agent. */
  function Rest(stack: seq<nat>, refs: map<nat, int>, inUse: set<nat>, locals: multiset<nat>, log: seq<Callback>,
                taken: nat): State {
    State([], [], stack, 1, refs, inUse, locals, log, taken, false)
  }

  const NOTHING: State := Rest([], map[], {}, multiset{}, [], 0)

  const TOLD: State := Rest([], map[], {}, multiset{}, [Accepted(ID)], 0)

  lemma Initialises() returns (acts: seq<Action>)
    ensures Came(acts, On(NOTHING, Quiet(-RELEASE, 0, false), AcReady(0, ID)))
  {
    hide Init;
    FreshCame();
    var s;
    acts, s := Next([], Fresh(), Start(0, 0, Accept));
    acts, s := Next(acts, s, Continue(0, Succeeds));
  }

  /** A connection is accepted, and a receive is outstanding. */
  lemma Connects() returns (acts: seq<Action>)
    ensures Came(acts, On(TOLD, Quiet(1, 1, false), Idle))
  {
    hide Came, On;
    acts := Initialises();
    acts := Goes(acts, NOTHING, Quiet(-RELEASE, 0, false), AcReady(0, ID), Succeeds,
                 Quiet(-RELEASE + 1, 0, false), AcCounted(0, ID));
    acts := Goes(acts, NOTHING, Quiet(-RELEASE + 1, 0, false), AcCounted(0, ID), Succeeds,
                 Quiet(1, 0, false), AcLive(0, ID));
    acts := Does(acts, NOTHING, Quiet(1, 0, false), AcLive(0, ID), Succeeds, TOLD, Quiet(1, 0, false), AcTold(0));
    acts := Goes(acts, TOLD, Quiet(1, 0, false), AcTold(0), Succeeds, Quiet(2, 0, false), AcRecv(0));
    acts := Goes(acts, TOLD, Quiet(2, 0, false), AcRecv(0), Succeeds, Quiet(2, 1, false), Return(0));
    acts := Goes(acts, TOLD, Quiet(2, 1, false), Return(0), Succeeds, Quiet(1, 1, false), Idle);
  }

  const HEARD: seq<Callback> := [Accepted(ID), Received(ID, 7)]

  /** Packet 7 is received, and its job is queued. */
  lemma Receives(acts: seq<Action>) returns (acts': seq<Action>)
    requires Came(acts, On(TOLD, Quiet(1, 1, false), Idle))
    ensures Came(acts', On(Rest([], map[7 := 1], {7}, multiset{}, HEARD, 0), Quiet(1, 1, false), Idle))
  {
    hide Came, On;
    var x := Quiet(1, 0, false);
    var s1 := Rest([], map[7 := 1], {7}, multiset{}, [Accepted(ID)], 0);
    var s2 := Rest([], map[7 := 2], {7}, multiset{}, [Accepted(ID)], 0);
    var s3 := Rest([], map[7 := 2], {7}, multiset{}, HEARD, 0);
    var s4 := Rest([], map[7 := 1], {7}, multiset{}, HEARD, 0);
    acts' := Completes(acts, TOLD, Quiet(1, 1, false), RecvDone(true), x, RvLoop(0));
    acts' := Does(acts', TOLD, x, RvLoop(0), Frame(7), s1, x, RvPacket(0, 7));
    acts' := Does(acts', s1, x, RvPacket(0, 7), Succeeds, s2, x, RvShared(0, 7));
    acts' := Does(acts', s2, x, RvShared(0, 7), Succeeds, s3, x, RvFree(0, 7));
    acts' := Does(acts', s3, x, RvFree(0, 7), Succeeds, s4, x, RvLoop(0));
    acts' := Goes(acts', s4, x, RvLoop(0), Succeeds, Quiet(1, 1, false), Idle);
  }

  /** The rest of the server while the answer is on its way; it is the packet that was received. */
  function Echoing(refs: nat, locals: multiset<nat>): State {
    Rest([], map[7 := refs], {7}, locals, HEARD, 2)
  }

  /** The contents thread takes both jobs. */
  lemma TakesJobs(acts: seq<Action>) returns (acts': seq<Action>)
    requires Came(acts, On(Rest([], map[7 := 1], {7}, multiset{}, HEARD, 0), Quiet(1, 1, false), Idle))
    ensures Came(acts', On(Echoing(1, multiset{7}), Quiet(1, 1, false), Idle))
  {
    hide Came;
    var s;
    acts', s := Next(acts, On(Rest([], map[7 := 1], {7}, multiset{}, HEARD, 0), Quiet(1, 1, false), Idle), AppTakesJob);
    acts', s := Next(acts', s, AppTakesJob);
    assert s.locals == multiset{7};
  }

  /** It calls `SendPacket`. */
  lemma Asks(acts: seq<Action>) returns (acts': seq<Action>)
    requires Came(acts, On(Echoing(1, multiset{7}), Quiet(1, 1, false), Idle))
    ensures Came(acts', On(Echoing(1, multiset{}), Quiet(2, 1, false), AqCheck(0, ID, false, ToSend(7))))
  {
    hide Came;
    var s;
    acts', s := Next(acts, On(Echoing(1, multiset{7}), Quiet(1, 1, false), Idle), Start(0, 0, Acquire(ID, ToSend(7))));
    assert s.slots == [Quiet(2, 1, false)] && s.agents == [AqCheck(0, ID, false, ToSend(7))];
  }

  /** The slot while packet 7 is sent. */
  function Sending(io: int, queue: seq<nat>, size: int, sending: seq<nat>, count: nat, sendOut: nat, posted: seq<nat>,
                   isSending: bool): Slot {
    Slot(io, ID, isSending, queue, size, sending, count, 0, 1, sendOut, false, false, false, [7], posted)
  }

  /** The packet is linked and counted. */
  lemma Links(acts: seq<Action>) returns (acts': seq<Action>)
    requires Came(acts, On(Echoing(1, multiset{}), Quiet(2, 1, false), AqCheck(0, ID, false, ToSend(7))))
    ensures Came(acts', On(Echoing(2, multiset{7}), Sending(2, [7], 1, [], 0, 0, [], false), SpExchange(0)))
  {
    hide Came, On;
    var x, y := Quiet(2, 1, false), Sending(2, [7], 0, [], 0, 0, [], false);
    var s1, s2 := Echoing(1, multiset{}), Echoing(2, multiset{});
    acts' := Goes(acts, s1, x, AqCheck(0, ID, false, ToSend(7)), Succeeds, x, AqOk(0, ID, ToSend(7)));
    acts' := Does(acts', s1, x, AqOk(0, ID, ToSend(7)), Succeeds, s2, x, SdShared(0, ID, 7));
    acts' := Goes(acts', s2, x, SdShared(0, ID, 7), Succeeds, y, SdLinked(0, 7));
    acts' := Does(acts', s2, y, SdLinked(0, 7), Succeeds, Echoing(2, multiset{7}),
                  Sending(2, [7], 1, [], 0, 0, [], false), SpExchange(0));
  }

  /** A batch is filled with it, */
  lemma Fills(acts: seq<Action>) returns (acts': seq<Action>)
    requires Came(acts, On(Echoing(2, multiset{7}), Sending(2, [7], 1, [], 0, 0, [], false), SpExchange(0)))
    ensures Came(acts', On(Echoing(2, multiset{7}), Sending(2, [], -1, [7], 0, 0, [], true), SpRestore(0)))
  {
    hide Came, On;
    var s, x := Echoing(2, multiset{7}), Sending(2, [7], 1, [], 0, 0, [], true);
    var y, z := Sending(2, [7], 0, [], 0, 0, [], true), Sending(2, [], 0, [7], 0, 0, [], true);
    acts' := Goes(acts, s, Sending(2, [7], 1, [], 0, 0, [], false), SpExchange(0), Succeeds, x, SpSize(0));
    acts' := Goes(acts', s, x, SpSize(0), Succeeds, x, SpBatch(0));
    acts' := Goes(acts', s, x, SpBatch(0), Succeeds, y, SpTake(0));
    acts' := Goes(acts', s, y, SpTake(0), Succeeds, z, SpBatch(0));
    acts' := Goes(acts', s, z, SpBatch(0), Succeeds, Sending(2, [], -1, [7], 0, 0, [], true), SpRestore(0));
  }

  /** and handed to `WSASend`. */
  lemma Posts(acts: seq<Action>) returns (acts': seq<Action>)
    requires Came(acts, On(Echoing(2, multiset{7}), Sending(2, [], -1, [7], 0, 0, [], true), SpRestore(0)))
    ensures Came(acts', On(Echoing(2, multiset{7}), Sending(2, [], 0, [7], 1, 1, [7], true), Idle))
  {
    hide Came, On;
    var s, x := Echoing(2, multiset{7}), Sending(2, [], 0, [7], 0, 0, [], true);
    var y, z := Sending(2, [], 0, [7], 1, 0, [], true), Sending(3, [], 0, [7], 1, 0, [], true);
    var u := Sending(3, [], 0, [7], 1, 1, [7], true);
    acts' := Goes(acts, s, Sending(2, [], -1, [7], 0, 0, [], true), SpRestore(0), Succeeds, x, SpStore(0));
    acts' := Goes(acts', s, x, SpStore(0), Succeeds, y, SpCount(0));
    acts' := Goes(acts', s, y, SpCount(0), Succeeds, z, SpSend(0));
    acts' := Goes(acts', s, z, SpSend(0), Succeeds, u, Return(0));
    acts' := Goes(acts', s, u, Return(0), Succeeds, Sending(2, [], 0, [7], 1, 1, [7], true), Idle);
  }

  /** The contents thread frees its reference. */
  lemma Frees(acts: seq<Action>) returns (acts': seq<Action>)
    requires Came(acts, On(Echoing(2, multiset{7}), Sending(2, [], 0, [7], 1, 1, [7], true), Idle))
    ensures Came(acts', On(Echoing(1, multiset{}), Sending(2, [], 0, [7], 1, 1, [7], true), Idle))
  {
    hide Came;
    var s;
    acts', s := Next(acts, On(Echoing(2, multiset{7}), Sending(2, [], 0, [7], 1, 1, [7], true), Idle), AppFree(7));
    assert s.refs == map[7 := 1] && s.inUse == {7} && s.locals == multiset{};
  }

  /** The rest of the server when the packet is back in its pool. */
  const EMPTIED: State := Rest([], map[7 := 0], {}, multiset{}, HEARD, 2)

  /** The send completes, and its packet is freed, */
  lemma Finishes(acts: seq<Action>) returns (acts': seq<Action>)
    requires Came(acts, On(Echoing(1, multiset{}), Sending(2, [], 0, [7], 1, 1, [7], true), Idle))
    ensures Came(acts', On(EMPTIED, Sending(2, [], 0, [], 0, 0, [7], false), SpExchange(0)))
  {
    hide Came, On;
    var x := Sending(2, [], 0, [7], 1, 0, [7], true);
    var y, z := x.(freed := 1), Sending(2, [], 0, [], 0, 0, [7], true);
    acts' := Completes(acts, Echoing(1, multiset{}), Sending(2, [], 0, [7], 1, 1, [7], true), SendDone(true),
                       x, ScFree(0));
    acts' := Does(acts', Echoing(1, multiset{}), x, ScFree(0), Succeeds, EMPTIED, y, ScFree(0));
    acts' := Goes(acts', EMPTIED, y, ScFree(0), Succeeds, z, ScClear(0));
    acts' := Goes(acts', EMPTIED, z, ScClear(0), Succeeds, Sending(2, [], 0, [], 0, 0, [7], false), SpExchange(0));
  }

  /** and there is nothing more to send. */
  lemma Rechecks(acts: seq<Action>) returns (acts': seq<Action>)
    requires Came(acts, On(EMPTIED, Sending(2, [], 0, [], 0, 0, [7], false), SpExchange(0)))
    ensures Came(acts', On(EMPTIED, Sending(1, [], 0, [], 0, 0, [7], false), Idle))
  {
    hide Came, On;
    var x, y := Sending(2, [], 0, [], 0, 0, [7], false), Sending(2, [], 0, [], 0, 0, [7], true);
    acts' := Goes(acts, EMPTIED, x, SpExchange(0), Succeeds, y, SpSize(0));
    acts' := Goes(acts', EMPTIED, y, SpSize(0), Succeeds, y, SpClear(0));
    acts' := Goes(acts', EMPTIED, y, SpClear(0), Succeeds, x, SpRecheck(0));
    acts' := Goes(acts', EMPTIED, x, SpRecheck(0), Succeeds, x, Return(0));
    acts' := Goes(acts', EMPTIED, x, Return(0), Succeeds, Sending(1, [], 0, [], 0, 0, [7], false), Idle);
  }

  /** The slot when the client is gone. */
  function Gone(io: int, size: int): Slot {
    Sending(io, [], size, [], 0, 0, [7], false).(recvOut := 0, ended := true)
  }

  /** The client goes away, and the session is released. */
  lemma Leaves(acts: seq<Action>) returns (acts': seq<Action>)
    requires Came(acts, On(EMPTIED, Sending(1, [], 0, [], 0, 0, [7], false), Idle))
    ensures Came(acts', On(EMPTIED.(log := HEARD + [Released(ID)]), Gone(-RELEASE, 0), RlPush(0)))
  {
    hide Came, On;
    acts' := Completes(acts, EMPTIED, Sending(1, [], 0, [], 0, 0, [7], false), RecvDone(false), Gone(1, 0), Return(0));
    acts' := Goes(acts', EMPTIED, Gone(1, 0), Return(0), Succeeds, Gone(0, 0), RelCas(0));
    acts' := Goes(acts', EMPTIED, Gone(0, 0), RelCas(0), Succeeds, Gone(-RELEASE, 0), RlFree(0));
    acts' := Goes(acts', EMPTIED, Gone(-RELEASE, 0), RlFree(0), Succeeds, Gone(-RELEASE, 0), RlDrain(0));
    acts' := Goes(acts', EMPTIED, Gone(-RELEASE, 0), RlDrain(0), Succeeds, Gone(-RELEASE, -1), RlRestore(0));
    acts' := Goes(acts', EMPTIED, Gone(-RELEASE, -1), RlRestore(0), Succeeds, Gone(-RELEASE, 0), RlTell(0));
    acts' := Does(acts', EMPTIED, Gone(-RELEASE, 0), RlTell(0), Succeeds, EMPTIED.(log := HEARD + [Released(ID)]),
                  Gone(-RELEASE, 0), RlPush(0));
  }

  /** Its index goes back on the stack. */
  lemma Stacks(acts: seq<Action>) returns (acts': seq<Action>)
    requires Came(acts, On(EMPTIED.(log := HEARD + [Released(ID)]), Gone(-RELEASE, 0), RlPush(0)))
    ensures Came(acts', On(EMPTIED.(stack := [0], log := HEARD + [Released(ID)]), Gone(-RELEASE, 0), Idle))
  {
    hide Came;
    var s;
    acts', s := Next(acts, On(EMPTIED.(log := HEARD + [Released(ID)]), Gone(-RELEASE, 0), RlPush(0)),
                     Continue(0, Succeeds));
    assert s.stack == [0] && s.log == HEARD + [Released(ID)];
    assert s.slots == [Gone(-RELEASE, 0)] && s.agents == [Idle];
  }

  /** A session is accepted, receives a packet and is sent one, and is released when its client goes away:
      in the end nobody works, its index is on the stack, and the packet is back in its pool. */
  lemma WholeLife() returns (start: State, acts: seq<Action>)
    ensures Init(start) && Legal(start, acts)
    ensures var z := Run(start, acts);
            && z.log == [Accepted(65536), Received(65536, 7), Released(65536)] && z.taken == 2
            && |z.slots| == 1 && z.slots[0].linked == z.slots[0].posted == [7]
            && z.agents == [Idle] && z.stack == [0] && z.inUse == {} && !z.broken
  {
    hide Init, Legal, Run;
    acts := Connects();
    acts := Receives(acts);
    acts := TakesJobs(acts);
    acts := Asks(acts);
    acts := Links(acts);
    acts := Fills(acts);
    acts := Posts(acts);
    acts := Frees(acts);
    acts := Finishes(acts);
    acts := Rechecks(acts);
    acts := Leaves(acts);
    acts := Stacks(acts);
    start := Fresh();
  }
}
