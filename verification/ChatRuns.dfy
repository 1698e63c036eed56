/** Whole runs of the contents thread of ChatServer.cpp: the session map follows the callbacks. */
module ChatRuns {
  import opened Bytes
  import opened Words
  import opened Codec
  import opened Callbacks
  import opened ChatWorld
  import opened ServerTheorems
  import ServerSystem

  /** What the contents thread does next: it takes a job from the queue, with the bytes of its packet,
      or checks for players who have been quiet for too long. */
  datatype Job = Job(cb: Callback, packet: seq<byte>, junk: nat) | Timeout(late: seq<nat>)

  /** After a break into the debugger nothing more happens. */
  function Step(w: World, job: Job): World {
    if w.broken then w
    else
      match job
      case Job(cb, packet, junk) => Handle(w, cb, packet, junk)
      case Timeout(late) => TimeOut(w, late)
  }

  function AfterJobs(jobs: seq<Job>): World {
    if jobs == [] then EmptyWorld() else Step(AfterJobs(jobs[..|jobs| - 1]), jobs[|jobs| - 1])
  }

  /** The callbacks whose jobs have been handled. */
  function Log(jobs: seq<Job>): seq<Callback> {
    if jobs == [] then []
    else
      var before, job := jobs[..|jobs| - 1], jobs[|jobs| - 1];
      if job.Job? then Log(before) + [job.cb] else Log(before)
  }

  lemma BeforeOrderly(jobs: seq<Job>)
    requires jobs != [] && Orderly(Log(jobs))
    ensures Orderly(Log(jobs[..|jobs| - 1]))
  {
    var before := jobs[..|jobs| - 1];
    assert Log(jobs)[..|Log(before)|] == Log(before);
    PrefixOrderly(Log(jobs), |Log(before)|);
  }

  lemma {:induction false} StartOrderly(jobs: seq<Job>, k: nat)
    requires k <= |jobs| && Orderly(Log(jobs))
    ensures Orderly(Log(jobs[..k]))
    decreases |jobs|
  {
    if k == |jobs| {
      assert jobs[..k] == jobs;
    } else {
      var before := jobs[..|jobs| - 1];
      BeforeOrderly(jobs);
      StartOrderly(before, k);
      assert before[..k] == jobs[..k];
    }
  }

  lemma EmptyIsSound()
    ensures Sound(EmptyWorld())
  {
  }

  /** For every run of callbacks in order, with timeouts between them: the indices are right, nothing
      dangles, and the session map holds exactly the sessions that were accepted and not released. */
  lemma {:induction false} JobsTheorem(jobs: seq<Job>)
    requires Orderly(Log(jobs))
    ensures Sound(AfterJobs(jobs))
    ensures !AfterJobs(jobs).broken ==>
            forall id: nat :: id in AfterJobs(jobs).players <==> PhaseOf(Log(jobs), id) == Open
  {
    hide Sound, Handle, TimeOut, PhaseOf, Orderly;
    if jobs == [] {
      EmptyIsSound();
      NothingOpen();
    } else {
      var before, job := jobs[..|jobs| - 1], jobs[|jobs| - 1];
      BeforeOrderly(jobs);
      JobsTheorem(before);
      if !AfterJobs(before).broken {
        match job
        case Job(cb, packet, junk) => NextCallback(before, job);
        case Timeout(late) => TimeOutSound(AfterJobs(before), late);
      }
    }
  }

  lemma NextCallback(before: seq<Job>, job: Job)
    requires job.Job? && Orderly(Log(before) + [job.cb]) && Sound(AfterJobs(before))
    requires forall id: nat :: id in AfterJobs(before).players <==> PhaseOf(Log(before), id) == Open
    ensures var z := Handle(AfterJobs(before), job.cb, job.packet, job.junk);
            Sound(z) && forall id: nat :: id in z.players <==> PhaseOf(Log(before) + [job.cb], id) == Open
  {
    hide Sound, Handle, PhaseOf, AfterJobs, Log, Dangles;
    var w, log := AfterJobs(before), Log(before) + [job.cb];
    PhaseOfAppend(Log(before), job.cb, job.cb.id);
    assert PhaseOf(log, job.cb.id) != Broken;
    AcceptSound(w, job.cb.id);
    HandleSound(w, job.cb, job.packet, job.junk);
    var z := Handle(w, job.cb, job.packet, job.junk);
    forall id: nat ensures id in z.players <==> PhaseOf(log, id) == Open {
      PhaseOfAppend(Log(before), job.cb, id);
    }
  }

  lemma NothingOpen()
    ensures forall id: nat :: PhaseOf(Log([]), id) == New
    ensures AfterJobs([]) == EmptyWorld()
  {
  }

  /** A timeout in a run disconnects exactly the players who are late and are not leaving already. */
  lemma TimeoutsReach(jobs: seq<Job>, late: seq<nat>)
    requires !AfterJobs(jobs).broken
    ensures var w, z := AfterJobs(jobs), AfterJobs(jobs + [Timeout(late)]);
            && z.players.Keys == w.players.Keys && z == w.(players := z.players, out := z.out)
            && (forall t :: t in w.players ==>
                  z.players[t] == w.players[t].(leaving := w.players[t].leaving || t in late))
            && (forall e :: multiset(z.out)[e] == multiset(w.out)[e] + if IsLate(w, late, e) then 1 else 0)
  {
    hide TimeOut, IsLate;
    assert (jobs + [Timeout(late)])[..|jobs|] == jobs;
    TimeOutWorks(AfterJobs(jobs), late);
  }

  /** Every receive and every release finds its player, every accept a free session. */
  lemma JobsFindPlayers(jobs: seq<Job>, k: nat)
    requires Orderly(Log(jobs)) && k < |jobs| && jobs[k].Job? && !AfterJobs(jobs[..k]).broken
    ensures jobs[k].cb.Accepted? <==> jobs[k].cb.id !in AfterJobs(jobs[..k]).players
  {
    hide Sound, AfterJobs, PhaseOf;
    var id := jobs[k].cb.id;
    StartOrderly(jobs, k);
    StartOrderly(jobs, k + 1);
    JobsTheorem(jobs[..k]);
    assert jobs[..k + 1][..k] == jobs[..k];
    assert Log(jobs[..k + 1]) == Log(jobs[..k]) + [jobs[k].cb];
    PhaseOfAppend(Log(jobs[..k]), jobs[k].cb, id);
    assert PhaseOf(Log(jobs[..k + 1]), id) != Broken;
  }

  /** In every state of the server, the jobs taken so far have left the contents thread in order. */
  lemma ServerKeepsPlayersInOrder(s: ServerSystem.State, jobs: seq<Job>)
    requires Reachable(s) && s.taken <= |s.log| && Log(jobs) == s.log[..s.taken]
    ensures Orderly(Log(jobs)) && Sound(AfterJobs(jobs))
    ensures !AfterJobs(jobs).broken ==>
              forall id: nat :: id in AfterJobs(jobs).players <==> PhaseOf(s.log[..s.taken], id) == Open
  {
    hide Reachable, Sound, AfterJobs;
    CallbacksAreOrderly(s);
    PrefixOrderly(s.log, s.taken);
    JobsTheorem(jobs);
  }
}
