/** Accounts of the contents thread of ChatServer.cpp: whom the account map knows, and when an account
    has two active players. */
module ChatAccounts {
  import opened Bytes
  import opened Words
  import opened Callbacks
  import opened ChatWorld
  import opened ChatRuns

  predicate Active(w: World, t: nat) {
    t in w.players && w.players[t].isLogin && !w.players[t].leaving
  }

  /** What the disconnect of the older session at login is for. */
  ghost predicate OnePerAccount(w: World) {
    forall t, u :: Active(w, t) && Active(w, u) && w.players[t].account == w.players[u].account ==> t == u
  }

  /** The account map knows every active player. */
  ghost predicate Known(w: World) {
    forall t :: Active(w, t) ==> w.players[t].account in w.accounts && w.accounts[w.players[t].account] == t
  }

  lemma KnownMeansOne(w: World)
    requires Known(w)
    ensures OnePerAccount(w)
  {
    forall t, u | Active(w, t) && Active(w, u) && w.players[t].account == w.players[u].account ensures t == u {
      assert w.accounts[w.players[t].account] == t;
      assert w.accounts[w.players[u].account] == u;
    }
  }

  lemma LeaveKnown(w: World, s: nat)
    requires Known(w) && s in w.players
    ensures Known(Leave(w, s))
  {
  }

  lemma {:induction false} TimeOutKnown(w: World, late: seq<nat>)
    requires Known(w)
    ensures Known(TimeOut(w, late))
    decreases |late|
  {
    hide Known, Leave;
    if late != [] {
      if late[0] in w.players { LeaveKnown(w, late[0]); }
      TimeOutKnown(if late[0] in w.players then Leave(w, late[0]) else w, late[1..]);
    }
  }

  lemma LoginKnown(w: World, s: nat, data: seq<byte>)
    requires Sound(w) && Known(w) && s in w.players
    ensures Known(Login(w, s, data))
  {
    if w.players[s].isLogin || |data| != 8 + NAME + NAME + SESSION_KEY {
      LeaveKnown(w, s);
    } else {
      var v, a := SignIn(w, s, data), data[..8];
      var z := Register(v, s, a);
      forall t | Active(z, t) ensures z.players[t].account in z.accounts && z.accounts[z.players[t].account] == t {
        if t != s {
          assert Active(w, t);
        }
      }
    }
  }

  lemma VacateKnown(w: World, s: nat)
    requires Known(w) && s in w.players
    ensures Known(Vacate(w, s))
  {
    forall t | Active(Vacate(w, s), t)
      ensures var v := Vacate(w, s); v.players[t].account in v.accounts && v.accounts[v.players[t].account] == t
    {
      assert Active(w, t);
    }
  }

  lemma SectorMoveKnown(w: World, s: nat, data: seq<byte>)
    requires Known(w) && s in w.players
    ensures Known(SectorMove(w, s, data))
  {
    hide Vacate, LenOf, MoveResponse, Leave;
    LeaveKnown(w, s);
    VacateKnown(w, s);
    var z := SectorMove(w, s, data);
    var v := if w.players[s].x != INVALID_SECTOR then Vacate(w, s) else w;
    forall t | Active(z, t) ensures z.players[t].account in z.accounts && z.accounts[z.players[t].account] == t {
      assert Active(w, t) || Active(v, t) || Active(Leave(w, s), t);
    }
  }

  lemma MessageKnown(w: World, s: nat, data: seq<byte>)
    requires Known(w) && s in w.players
    ensures Known(Message(w, s, data))
  {
    hide LenOf, MessageResponse, Sends, Around;
    LeaveKnown(w, s);
    var z := Message(w, s, data);
    forall t | Active(z, t) ensures z.players[t].account in z.accounts && z.accounts[z.players[t].account] == t {
      assert Active(w, t) || Active(Leave(w, s), t);
    }
  }

  lemma ReceiveKnown(w: World, s: nat, packet: seq<byte>, junk: nat)
    requires Sound(w) && Known(w)
    ensures Known(Receive(w, s, packet, junk))
  {
    hide Sound, Known, LenOf, Login, SectorMove, Message, Leave;
    if s in w.players {
      var data := if |packet| >= 2 then packet[2..] else packet;
      LoginKnown(w, s, data);
      SectorMoveKnown(w, s, data);
      MessageKnown(w, s, data);
      LeaveKnown(w, s);
    }
  }

  /** The account entry that a release would erase belongs to another, active player. */
  predicate ErasesAnother(w: World, s: nat) {
    && s in w.players && w.players[s].isLogin && w.players[s].account in w.accounts
    && w.accounts[w.players[s].account] != s && Active(w, w.accounts[w.players[s].account])
  }

  /** A release keeps every active player known exactly when the entry it erases is not another
      active player's. */
  lemma ReleaseKeepsKnownIff(w: World, s: nat)
    requires Sound(w) && Known(w)
    ensures Known(Release(w, s)) <==> !ErasesAnother(w, s)
  {
    if s in w.players {
      var z := Release(w, s);
      var v := if w.players[s].x != INVALID_SECTOR then Vacate(w, s) else w;
      VacateKnown(w, s);
      SameFaces(w, s);
      if ErasesAnother(w, s) {
        assert Active(z, w.accounts[w.players[s].account]);
      } else {
        forall t | Active(z, t) ensures z.players[t].account in z.accounts && z.accounts[z.players[t].account] == t {
          assert Active(v, t) && Active(w, t);
        }
      }
    }
  }

  /** Swap-remove changes nobody's account or status. */
  lemma SameFaces(w: World, s: nat)
    requires s in w.players
    ensures var v := Vacate(w, s);
      && v.players.Keys == w.players.Keys && v.accounts == w.accounts
      && forall t :: t in w.players ==>
           v.players[t].account == w.players[t].account && v.players[t].isLogin == w.players[t].isLogin
           && v.players[t].leaving == w.players[t].leaving
  {
  }

  /** A release that erases the entry of another active player. */
  predicate Erases(w: World, job: Job) {
    !w.broken && job.Job? && job.cb.Released? && ErasesAnother(w, job.cb.id)
  }

  lemma StepKeepsKnownIff(w: World, job: Job)
    requires Sound(w) && Known(w) && (job.Job? && job.cb.Accepted? && !w.broken ==> job.cb.id !in w.players)
    ensures Known(Step(w, job)) <==> !Erases(w, job)
  {
    hide Sound, Receive, Release, TimeOut, ErasesAnother;
    if !w.broken {
      match job
      case Job(Accepted(id), _, _) => AcceptKnown(w, id);
      case Job(Released(id), _, _) => ReleaseKeepsKnownIff(w, id);
      case Job(Received(id, _), packet, junk) => ReceiveKnown(w, id, packet, junk);
      case Timeout(late) => TimeOutKnown(w, late);
    }
  }

  lemma AcceptKnown(w: World, id: nat)
    requires Known(w) && id !in w.players
    ensures Known(Accept(w, id))
  {
    var z := Accept(w, id);
    forall t | Active(z, t) ensures z.players[t].account in z.accounts && z.accounts[z.players[t].account] == t {
      assert Active(w, t);
    }
  }

  ghost predicate KnownThroughout(jobs: seq<Job>) {
    Known(AfterJobs(jobs)) && (jobs != [] ==> KnownThroughout(jobs[..|jobs| - 1]))
  }

  predicate NothingErased(jobs: seq<Job>) {
    jobs != [] ==>
      NothingErased(jobs[..|jobs| - 1]) && !Erases(AfterJobs(jobs[..|jobs| - 1]), jobs[|jobs| - 1])
  }

  /** The account map knows every active player all through a run exactly when no release of the run
      erases another active player's entry; and then no account has two. */
  lemma {:induction false} EntriesTheorem(jobs: seq<Job>)
    requires Orderly(Log(jobs))
    ensures KnownThroughout(jobs) <==> NothingErased(jobs)
    ensures NothingErased(jobs) ==> OnePerAccount(AfterJobs(jobs))
  {
    hide Sound, Known, Erases, Step, OnePerAccount, Log, Orderly;
    if jobs == [] {
      NobodyIsKnown();
    } else {
      var before, job := jobs[..|jobs| - 1], jobs[|jobs| - 1];
      BeforeOrderly(jobs);
      EntriesTheorem(before);
      if KnownThroughout(before) {
        JobsTheorem(before);
        if job.Job? && !AfterJobs(before).broken {
          JobsFindPlayers(jobs, |before|);
        }
        StepKeepsKnownIff(AfterJobs(before), job);
      }
    }
    if Known(AfterJobs(jobs)) {
      KnownMeansOne(AfterJobs(jobs));
    }
  }

  lemma NobodyIsKnown()
    ensures Known(EmptyWorld())
  {
  }

  // ---------------------------------------------------------------- one active player per account

  /** A player other than `s` is active with the account `a`, and the map does not name him. */
  ghost predicate Overlooks(w: World, s: nat, a: seq<byte>) {
    exists t :: t != s && Active(w, t) && w.players[t].account == a && !(a in w.accounts && w.accounts[a] == t)
  }

  /** Nobody became active, and the active players kept their accounts. */
  lemma FewerActive(w: World, z: World)
    requires OnePerAccount(w)
    requires forall t :: Active(z, t) ==> Active(w, t) && z.players[t].account == w.players[t].account
    ensures OnePerAccount(z)
  {
  }

  /** What a login does to who is active. */
  lemma LoginActs(w: World, s: nat, data: seq<byte>)
    requires Sound(w) && s in w.players && !w.players[s].leaving && !w.players[s].isLogin
    requires |data| == 8 + NAME + NAME + SESSION_KEY
    ensures var z, a := Login(w, s, data), data[..8];
            && Active(z, s) && z.players[s].account == a
            && forall t :: t != s ==>
                 && (Active(z, t) <==> Active(w, t) && !(a in w.accounts && w.accounts[a] == t))
                 && (Active(z, t) ==> z.players[t].account == w.players[t].account)
  {
  }

  /** A login keeps one active player per account exactly when there is no other active player of that
      account whom the map does not name: the entry is all that the source looks at. */
  lemma LoginKeepsOneIff(w: World, s: nat, data: seq<byte>)
    requires Sound(w) && OnePerAccount(w) && s in w.players && !w.players[s].leaving && !w.players[s].isLogin
    requires |data| == 8 + NAME + NAME + SESSION_KEY
    ensures OnePerAccount(Login(w, s, data)) <==> !Overlooks(w, s, data[..8])
  {
    hide Login, Sound;
    LoginActs(w, s, data);
    var z, a := Login(w, s, data), data[..8];
    if Overlooks(w, s, a) {
      var t :| t != s && Active(w, t) && w.players[t].account == a && !(a in w.accounts && w.accounts[a] == t);
      assert Active(z, t) && Active(z, s);
    } else {
      forall t, u | Active(z, t) && Active(z, u) && z.players[t].account == z.players[u].account ensures t == u {
        if t != s && u != s {
          assert Active(w, t) && Active(w, u);
        }
      }
    }
  }

  lemma LeaveKeepsOne(w: World, s: nat)
    requires OnePerAccount(w) && s in w.players
    ensures OnePerAccount(Leave(w, s))
  {
    FewerActive(w, Leave(w, s));
  }

  lemma {:induction false} TimeOutKeepsOne(w: World, late: seq<nat>)
    requires OnePerAccount(w)
    ensures OnePerAccount(TimeOut(w, late))
    decreases |late|
  {
    hide OnePerAccount, Leave;
    if late != [] {
      if late[0] in w.players { LeaveKeepsOne(w, late[0]); }
      TimeOutKeepsOne(if late[0] in w.players then Leave(w, late[0]) else w, late[1..]);
    }
  }

  lemma MoveKeepsOne(w: World, s: nat, data: seq<byte>)
    requires OnePerAccount(w) && s in w.players
    ensures OnePerAccount(SectorMove(w, s, data))
  {
    hide Vacate, LenOf, MoveResponse;
    VacateRest(w, s);
    FewerActive(w, SectorMove(w, s, data));
  }

  lemma MessageKeepsOne(w: World, s: nat, data: seq<byte>)
    requires OnePerAccount(w) && s in w.players
    ensures OnePerAccount(Message(w, s, data))
  {
    hide LenOf, MessageResponse, Sends, Around;
    FewerActive(w, Message(w, s, data));
  }

  lemma ReleaseKeepsOne(w: World, s: nat)
    requires OnePerAccount(w)
    ensures OnePerAccount(Release(w, s))
  {
    hide Vacate;
    if s in w.players {
      VacateRest(w, s);
      FewerActive(w, Release(w, s));
    }
  }

  lemma AcceptKeepsOne(w: World, s: nat)
    requires OnePerAccount(w) && s !in w.players
    ensures OnePerAccount(Accept(w, s))
  {
    FewerActive(w, Accept(w, s));
  }

  /** The packet is a login that will be carried out. */
  predicate LogsIn(w: World, s: nat, packet: seq<byte>) {
    && s in w.players && !w.players[s].leaving && !w.players[s].isLogin
    && |packet| == 2 + 8 + NAME + NAME + SESSION_KEY && LenOf(packet[0], packet[1]) == REQ_LOGIN
  }

  lemma ReceiveKeepsOneIff(w: World, s: nat, packet: seq<byte>, junk: nat)
    requires Sound(w) && OnePerAccount(w)
    ensures OnePerAccount(Receive(w, s, packet, junk))
            <==> !(LogsIn(w, s, packet) && Overlooks(w, s, packet[2..10]))
  {
    hide Sound, OnePerAccount, Overlooks, LenOf, SectorMove, Message, Leave, SignIn, Register;
    if s in w.players {
      var data := if |packet| >= 2 then packet[2..] else packet;
      MoveKeepsOne(w, s, data);
      MessageKeepsOne(w, s, data);
      LeaveKeepsOne(w, s);
      if LogsIn(w, s, packet) {
        assert data[..8] == packet[2..10];
        LoginKeepsOneIff(w, s, data);
      }
    }
  }

  /** A login that is carried out although the map does not name another active player of the account. */
  ghost predicate Unnoticed(w: World, job: Job) {
    && !w.broken && job.Job? && job.cb.Received?
    && LogsIn(w, job.cb.id, job.packet) && Overlooks(w, job.cb.id, job.packet[2..10])
  }

  lemma StepKeepsOneIff(w: World, job: Job)
    requires Sound(w) && OnePerAccount(w) && (job.Job? && job.cb.Accepted? && !w.broken ==> job.cb.id !in w.players)
    ensures OnePerAccount(Step(w, job)) <==> !Unnoticed(w, job)
  {
    hide Sound, OnePerAccount, Overlooks, LogsIn, Receive, Release, TimeOut;
    if !w.broken {
      match job
      case Job(Accepted(id), _, _) => AcceptKeepsOne(w, id);
      case Job(Released(id), _, _) => ReleaseKeepsOne(w, id);
      case Job(Received(id, _), packet, junk) => ReceiveKeepsOneIff(w, id, packet, junk);
      case Timeout(late) => TimeOutKeepsOne(w, late);
    }
  }

  ghost predicate OneThroughout(jobs: seq<Job>) {
    OnePerAccount(AfterJobs(jobs)) && (jobs != [] ==> OneThroughout(jobs[..|jobs| - 1]))
  }

  ghost predicate NoneUnnoticed(jobs: seq<Job>) {
    jobs != [] ==>
      NoneUnnoticed(jobs[..|jobs| - 1]) && !Unnoticed(AfterJobs(jobs[..|jobs| - 1]), jobs[|jobs| - 1])
  }

  /** No account has two active players at any point of a run, exactly when no login of the run finds
      another active player of its account whom the account map does not name. */
  lemma {:induction false} AccountsTheorem(jobs: seq<Job>)
    requires Orderly(Log(jobs))
    ensures OneThroughout(jobs) <==> NoneUnnoticed(jobs)
  {
    hide Sound, OnePerAccount, Unnoticed, Step, Log, Orderly;
    if jobs == [] {
      NobodyIsKnown();
      KnownMeansOne(EmptyWorld());
    } else {
      var before, job := jobs[..|jobs| - 1], jobs[|jobs| - 1];
      BeforeOrderly(jobs);
      AccountsTheorem(before);
      if OneThroughout(before) {
        JobsTheorem(before);
        if job.Job? && !AfterJobs(before).broken {
          JobsFindPlayers(jobs, |before|);
        }
        StepKeepsOneIff(AfterJobs(before), job);
      }
    }
  }
}
