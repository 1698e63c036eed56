/** Runs of the contents thread of ChatServer.cpp that end badly. */
module ChatExamples {
  import opened Bytes
  import opened Words
  import opened Callbacks
  import opened ChatWorld
  import opened ChatRequests
  import opened ChatRuns
  import opened ChatAccounts

  /** One more job of a run that is still in order. */
  lemma Then(jobs: seq<Job>, w: World, job: Job) returns (jobs': seq<Job>, w': World)
    requires Orderly(Log(jobs)) && AfterJobs(jobs) == w && !w.broken
    requires job.Job? && PhaseAfter(PhaseOf(Log(jobs), job.cb.id), job.cb.id, job.cb) != Broken
    ensures Orderly(Log(jobs')) && AfterJobs(jobs') == w' == Handle(w, job.cb, job.packet, job.junk) && Sound(w')
    ensures jobs' == jobs + [job]
    ensures forall id :: PhaseOf(Log(jobs'), id) ==
                         if id == job.cb.id then PhaseAfter(PhaseOf(Log(jobs), id), id, job.cb)
                           else PhaseOf(Log(jobs), id)
  {
    hide Handle, PhaseOf, Sound;
    jobs' := jobs + [job];
    w' := Handle(w, job.cb, job.packet, job.junk);
    assert jobs'[..|jobs|] == jobs;
    assert Log(jobs') == Log(jobs) + [job.cb];
    forall id ensures PhaseOf(Log(jobs'), id) ==
                      if id == job.cb.id then PhaseAfter(PhaseOf(Log(jobs), id), id, job.cb)
                        else PhaseOf(Log(jobs), id) {
      PhaseOfAppend(Log(jobs), job.cb, id);
    }
    forall id ensures PhaseOf(Log(jobs'), id) != Broken {
      assert PhaseOf(Log(jobs), id) != Broken;
    }
    JobsTheorem(jobs');
  }

  const ACCOUNT: Account := [1, 0, 0, 0, 0, 0, 0, 0]

  const FOREIGN: Account := [2, 0, 0, 0, 0, 0, 0, 0]

  /** A login for the account, with empty names. */
  function LoginPacket(): seq<byte> {
    LoginRequest(ACCOUNT, Blank(NAME), Blank(NAME), Blank(SESSION_KEY))
  }

  function Blank(n: nat): (r: seq<byte>)
    ensures |r| == n
  {
    seq(n, i => 0 as byte)
  }

  /** A player who logs in is active, and whoever held the account is leaving. */
  lemma LoginOf(w: World, s: nat)
    requires Sound(w) && Present(w, s) && !w.players[s].isLogin && !w.broken
    ensures var z := Receive(w, s, LoginPacket(), 0);
            && !z.broken && z.players.Keys == w.players.Keys && z.accounts == w.accounts[ACCOUNT := s]
            && Active(z, s) && z.players[s].account == ACCOUNT && z.players[s].x == w.players[s].x
            && forall t :: t in w.players && t != s ==>
                 && z.players[t].(leaving := true) == w.players[t].(leaving := true)
                 && ((ACCOUNT in w.accounts ==> w.accounts[ACCOUNT] != t) ==> z.players[t] == w.players[t])
  {
    hide Sound, LoginRequest, LoginResponse;
    LoginWorks(w, s, ACCOUNT, Blank(NAME), Blank(NAME), Blank(SESSION_KEY), 0, 0);
  }

  /** One account, two active players: 1 and 2 log in, 1 is disconnected for it, the release of 1
      erases the entry of 2, and 3 logs in unnoticed. */
  lemma TwoPlayersOneAccount() returns (jobs: seq<Job>)
    ensures Orderly(Log(jobs)) && !OnePerAccount(AfterJobs(jobs))
    ensures Active(AfterJobs(jobs), 2) && Active(AfterJobs(jobs), 3)
  {
    hide Receive, LoginPacket, AfterJobs, Log, PhaseOf, OnePerAccount, Orderly, Sound;
    var w;
    jobs, w := BothLoggedIn();
    jobs, w := Then(jobs, w, Job(Released(1), [], 0));
    jobs, w := Then(jobs, w, Job(Accepted(3), [], 0));
    LoginOf(w, 3);
    jobs, w := Then(jobs, w, Job(Received(3, 0), LoginPacket(), 0));
    assert Active(w, 2) && Active(w, 3);
    TwoActive(w);
  }

  lemma TwoActive(w: World)
    requires Active(w, 2) && Active(w, 3) && w.players[2].account == w.players[3].account
    ensures !OnePerAccount(w)
  {
  }

  lemma BothLoggedIn() returns (jobs: seq<Job>, w: World)
    ensures Orderly(Log(jobs)) && AfterJobs(jobs) == w && !w.broken && Sound(w)
    ensures PhaseOf(Log(jobs), 1) == PhaseOf(Log(jobs), 2) == Open && PhaseOf(Log(jobs), 3) == New
    ensures w.players.Keys == {1, 2} && w.accounts == map[ACCOUNT := 2]
    ensures Active(w, 2) && w.players[1].isLogin && w.players[1].x == INVALID_SECTOR
    ensures w.players[1].account == w.players[2].account == ACCOUNT
  {
    hide Receive, LoginPacket, AfterJobs, Log, PhaseOf, Orderly, Sound;
    jobs, w := BothAccepted();
    LoginOf(w, 1);
    jobs, w := Then(jobs, w, Job(Received(1, 0), LoginPacket(), 0));
    LoginOf(w, 2);
    jobs, w := Then(jobs, w, Job(Received(2, 0), LoginPacket(), 0));
  }

  lemma BothAccepted() returns (jobs: seq<Job>, w: World)
    ensures Orderly(Log(jobs)) && AfterJobs(jobs) == w && !w.broken && Sound(w)
    ensures PhaseOf(Log(jobs), 1) == PhaseOf(Log(jobs), 2) == Open && PhaseOf(Log(jobs), 3) == New
    ensures w.players == map[1 := NEWCOMER, 2 := NEWCOMER] && w.accounts == map[]
  {
    NothingOpen();
    jobs, w := [], EmptyWorld();
    hide AfterJobs, Log, PhaseOf, Sound;
    jobs, w := Then(jobs, w, Job(Accepted(1), [], 0));
    jobs, w := Then(jobs, w, Job(Accepted(2), [], 0));
  }

  /** An accepted player logs in, and his move names another account: the thread breaks into the
      debugger. */
  lemma ForgedMoveBreaks() returns (jobs: seq<Job>)
    ensures Orderly(Log(jobs)) && AfterJobs(jobs).broken
    ensures jobs != [] && jobs[|jobs| - 1].Job? && |jobs[|jobs| - 1].packet| == 14
    ensures !AfterJobs(jobs[..|jobs| - 1]).broken
  {
    hide Receive, LoginPacket, AfterJobs, Log, PhaseOf, Orderly, Sound, MoveRequest;
    var w;
    jobs, w := BothLoggedIn();
    ForgedMove(w);
    ghost var before := jobs;
    jobs, w := Then(jobs, w, Job(Received(2, 0), MoveRequest(FOREIGN, 0, 0), 0));
    assert jobs[..|jobs| - 1] == before;
  }

  lemma ForgedMove(w: World)
    requires Sound(w) && Active(w, 2) && w.players[2].account == ACCOUNT
    ensures |MoveRequest(FOREIGN, 0, 0)| == 14 && Receive(w, 2, MoveRequest(FOREIGN, 0, 0), 0).broken
  {
    hide Receive, Sound, LenOf, LenBytes;
    var data := FOREIGN + LenBytes(0) + LenBytes(0);
    var packet := MoveRequest(FOREIGN, 0, 0);
    assert packet == LenBytes(REQ_SECTOR_MOVE) + data;
    TypeIsRead(REQ_SECTOR_MOVE, data);
    assert packet[2..10] == FOREIGN;
    BreaksIff(w, 2, packet, 0);
  }
}
