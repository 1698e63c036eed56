/** The contents thread: the jobs that the callbacks queued, handled one after the other. */
module ContentsThread {
  import opened Bytes
  import opened Codec
  import opened Callbacks
  import opened Packets
  import opened ChatWorld
  import opened ChatRuns
  import opened ChatServers

  lemma NextJob(jobs: seq<Job>, i: nat)
    requires i < |jobs|
    ensures AfterJobs(jobs[..i + 1]) == Step(AfterJobs(jobs[..i]), jobs[i])
  {
    assert jobs[..i + 1][..i] == jobs[..i];
  }

  method HandleCallback(server: ChatServer, cb: Callback, bytes: seq<byte>, junk: nat)
    requires server.Valid() && |bytes| <= DEFAULT_BUFFER && (cb.Accepted? ==> !Dangles(server.w, cb.id))
    modifies server, server.sectors, server.sessionMap.Values
    ensures server.Valid() && server.w == Handle(old(server.w), cb, bytes, junk)
    ensures fresh(server.sessionMap.Values - old(server.sessionMap.Values))
  {
    hide Sound, Handle, Dangles, ChatServer.Shows;
    var packet := new Packet();
    PushBytes(packet, bytes);
    assert packet.Data() == bytes;
    server.HandleJob(cb, packet, junk);
  }

  method HandleNext(server: ChatServer, job: Job)
    requires server.Valid() && (job.Job? ==> |job.packet| <= DEFAULT_BUFFER)
    requires !server.w.broken && job.Job? && job.cb.Accepted? ==> !Dangles(server.w, job.cb.id)
    modifies server, server.sectors, server.sessionMap.Values
    ensures server.Valid() && server.w == Step(old(server.w), job)
    ensures fresh(server.sessionMap.Values - old(server.sessionMap.Values))
  {
    hide Sound, Handle, TimeOut, Dangles;
    server.SameKeys();
    if server.broken { return; }
    match job
    case Job(cb, bytes, junk) => HandleCallback(server, cb, bytes, junk);
    case Timeout(late) => server.CheckTimeout(late);
  }

  /** Whatever the callbacks, the packets and the timeouts, the server ends up in the state the
      specification gives. */
  method HandleJobs(jobs: seq<Job>) returns (server: ChatServer)
    requires Orderly(Log(jobs)) && forall i :: 0 <= i < |jobs| && jobs[i].Job? ==> |jobs[i].packet| <= DEFAULT_BUFFER
    ensures server.Valid() && server.w == AfterJobs(jobs)
  {
    hide Sound, Step, AfterJobs, Log, Orderly, Dangles, ChatServer.Shows;
    server := new ChatServer();
    NothingOpen();
    var i := 0;
    while i < |jobs|
      invariant i <= |jobs| && fresh(server) && fresh(server.sectors) && fresh(server.sessionMap.Values)
      invariant server.Valid() && server.w == AfterJobs(jobs[..i])
    {
      NextJob(jobs, i);
      if jobs[i].Job? && !server.w.broken {
        JobsFindPlayers(jobs, i);
        AcceptSound(server.w, jobs[i].cb.id);
      }
      HandleNext(server, jobs[i]);
      i := i + 1;
    }
    assert jobs[..i] == jobs;
  }
}
