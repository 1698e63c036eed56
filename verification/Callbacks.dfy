/** The callbacks a server makes into the contents layer, and the order in which they may come. */
module Callbacks {

  /** `OnAccept`, `OnRecv` and `OnRelease`, as the jobs that the contents layer queues for them. */
  datatype Callback =
    | Accepted(id: nat)
    | Received(id: nat, packet: nat)
    | Released(id: nat)

  datatype Phase = New | Open | Closed | Broken

  function PhaseAfter(phase: Phase, id: nat, cb: Callback): Phase {
    if cb.id != id then phase
    else
      match (cb, phase)
      case (Accepted(_), New) => Open
      case (Received(_, _), Open) => Open
      case (Released(_), Open) => Closed
      case _ => Broken
  }

  /** Where a session stands after a sequence of callbacks; `Broken` once the order was violated. */
  function PhaseOf(log: seq<Callback>, id: nat): Phase {
    if log == [] then New
    else PhaseAfter(PhaseOf(log[..|log| - 1], id), id, log[|log| - 1])
  }

  /** Every session sees one accept, then its receives, then at most one release, then nothing. */
  ghost predicate Orderly(log: seq<Callback>) {
    forall id :: PhaseOf(log, id) != Broken
  }

  lemma PhaseOfAppend(log: seq<Callback>, cb: Callback, id: nat)
    ensures PhaseOf(log + [cb], id) == PhaseAfter(PhaseOf(log, id), id, cb)
  {
    assert (log + [cb])[..|log|] == log;
  }

  /** A prefix of an orderly log is orderly, so the callbacks can be handled one by one. */
  lemma {:induction false} PrefixOrderly(log: seq<Callback>, n: nat)
    requires n <= |log| && Orderly(log)
    ensures Orderly(log[..n])
    decreases |log| - n
  {
    if n < |log| {
      PrefixOrderly(log, n + 1);
      forall id ensures PhaseOf(log[..n], id) != Broken {
        assert log[..n + 1][..n] == log[..n];
        assert PhaseOf(log[..n + 1], id) != Broken;
      }
    } else {
      assert log[..n] == log;
    }
  }

  /** The phases as statements about the log. */
  lemma {:induction false} PhaseMeans(log: seq<Callback>, id: nat)
    ensures PhaseOf(log, id) == New ==> forall j :: 0 <= j < |log| ==> log[j].id != id
    ensures PhaseOf(log, id) == Open ==> Accepted(id) in log && Released(id) !in log
    ensures PhaseOf(log, id) == Closed ==> Accepted(id) in log && Released(id) in log
  {
    if log != [] {
      PhaseMeans(log[..|log| - 1], id);
    }
  }

  /** In an orderly log a session's first callback is its only accept, and nothing follows its
      release. */
  lemma OrderlyMeans(log: seq<Callback>, k: nat)
    requires Orderly(log) && k < |log|
    ensures log[k].Accepted? ==> forall j :: 0 <= j < k ==> log[j].id != log[k].id
    ensures !log[k].Accepted? ==> Accepted(log[k].id) in log[..k] && Released(log[k].id) !in log[..k]
  {
    var id := log[k].id;
    PrefixOrderly(log, k + 1);
    assert log[..k + 1] == log[..k] + [log[k]];
    PhaseOfAppend(log[..k], log[k], id);
    assert PhaseOf(log[..k + 1], id) != Broken;
    PhaseMeans(log[..k], id);
    assert forall j :: 0 <= j < k ==> log[..k][j] == log[j];
  }
}
