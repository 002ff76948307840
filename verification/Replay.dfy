/** Replay: what is stored is returned again. A runner that is sent a stored value returns
    it and starts no task; and a runner that starts anew can always catch up with all that
    is stored without starting any. */
module Replay {
  import opened Wrappers
  import opened Protocol
  import opened Runners
  import opened System
  import opened Timely
  import opened Segments
  import opened Guarantees

  /** In every history a stored value a runner is told of was in the row when the server
      answered (step `h`), under the key of the runner's task; the runner returns it and
      moves on, and no task is started. */
  lemma StoredAnswerIsReturned(ws: seq<World>, acts: seq<Action>, k: nat, i: nat) returns (h: nat)
    requires IsHistory(ws, acts) && k < |acts| && acts[k] == ReceiveAnswer(i) && ws[k].answers[i].Stored?
    ensures var r, value := ws[k].runners[i], ws[k].answers[i].value;
            && r.phase.Leasing? && ws[k + 1].runners[i] == Returning(r, r.phase.task.key, value)
            && ws[k + 1].starts == ws[k].starts && ws[k + 1].server == ws[k].server
            && h < k && acts[h] == HandleCall(i) && Rests(ws, i, h, k)
            && Stores(ws[h].server, r.position, r.phase.task.key, value)
  {
    h := AnswersAreGiven(ws, acts, k, i);
    var a := acts[k];
    assert ws[k + 1] == Next(ws[k], a);
    StoredMeansStored(ws[h], CallOf(ws[k].runners[i]));
    hide Handle, IsHistory;
  }

  lemma StoredMeansStored(w: World, q: Request)
    requires ReplyTo(w, q).Stored?
    ensures q.Lease? && Stores(w.server, q.position, q.key, ReplyTo(w, q).value)
  {
  }

  /** And in a timely history it is what the row holds still. */
  lemma ReturnsWhatIsStored(ws: seq<World>, acts: seq<Action>, k: nat, i: nat)
    requires IsTimelyHistory(ws, acts) && k < |acts| && acts[k] == ReceiveAnswer(i) && ws[k].answers[i].Stored?
    ensures var r, r' := ws[k].runners[i], ws[k + 1].runners[i];
            && r'.phase == Idle(Some(Returned(ws[k].answers[i].value)))
            && r'.position == r.position + 1 && |r'.results| == |r.results| + 1
            && Agrees(ws[k + 1].server, r', r.position) && r'.results[..|r.results|] == r.results
            && ws[k + 1].starts == ws[k].starts
  {
    var _ := StoredAnswerIsReturned(ws, acts, k, i);
    AlwaysInv(ws, acts, k);
    assert RunnerOk(ws[k], i);
    hide IsTimelyHistory;
  }

  /** What a runner does to replay a log. */
  function ReplayActions(i: nat, log: seq<(string, Bytes)>): seq<Action> {
    if log == [] then []
    else
      ReplayActions(i, log[..|log| - 1]) +
      [Execute(i, Task(log[|log| - 1].0, None, None)), HandleCall(i), ReceiveAnswer(i)]
  }

  /** The last runner has replayed the log; everything else is as it was in `w`. */
  ghost predicate HasCaughtUp(w: World, log: seq<(string, Bytes)>, w': World) {
    var i := |w.runners|;
    && |w'.runners| == i + 1 && w'.runners[..i] == w.runners
    && w'.runners[i].phase.Idle? && w'.runners[i].position == |log| && w'.runners[i].results == log
    && w'.server.token == Some(w'.runners[i].token) && i !in w'.answers
    && w'.server == w.server.(token := w'.server.token, meta := w'.server.meta)
    && w'.starts == w.starts && w'.failures == w.failures && w'.crashes == w.crashes
  }

  lemma CatchesUpByOne(w: World, log: seq<(string, Bytes)>, w1: World, entry: (string, Bytes), w2: World)
    requires HasCaughtUp(w, log, w1) && HasReplayed(w1, |w.runners|, entry.0, entry.1, w2)
    ensures HasCaughtUp(w, log + [entry], w2)
  {
    assert w2.runners[..|w.runners|] == w1.runners[..|w.runners|];
  }

  lemma NobodyElseIsAnswered(ws: seq<World>, acts: seq<Action>)
    requires IsHistory(ws, acts)
    ensures |ws[|acts|].runners| !in ws[|acts|].answers
  {
    if |ws[|acts|].runners| in ws[|acts|].answers {
      var _ := AnswersAreGiven(ws, acts, |acts|, |ws[|acts|].runners|);
      assert false;
    }
  }

  lemma BeginsToCatchUp(us: seq<World>, acts: seq<Action>) returns (vs: seq<World>, more: seq<Action>)
    requires IsHistory(us, acts)
    ensures more == [Deliver(Start(None)), Spawn(NextToken(us[|acts|]))]
    ensures Extends(us, acts, vs, more) && HasCaughtUp(us[|acts|], [], vs[|acts| + 2])
  {
    NobodyElseIsAnswered(us, acts);
    vs, more := Begins(us, acts);
    hide Extends, IsHistory;
  }

  /** From whatever state any history has led to, a new runner can start and return the whole
      stored log, position by position, every step on time, with no task started and nothing
      stored. */
  lemma {:induction false} NewRunnerReplaysLog(us: seq<World>, acts: seq<Action>, log: seq<(string, Bytes)>)
    returns (vs: seq<World>, more: seq<Action>)
    requires IsHistory(us, acts)
    requires forall p :: 0 <= p < |log| ==> Stores(us[|acts|].server, p, log[p].0, log[p].1)
    ensures more == [Deliver(Start(None)), Spawn(NextToken(us[|acts|]))] + ReplayActions(|us[|acts|].runners|, log)
    ensures Extends(us, acts, vs, more) && HasCaughtUp(us[|acts|], log, vs[|acts| + |more|])
    decreases |log|
  {
    var w := us[|acts|];
    if log == [] {
      vs, more := BeginsToCatchUp(us, acts);
    } else {
      var n := |log| - 1;
      var vs1, more1 := NewRunnerReplaysLog(us, acts, log[..n]);
      var w1 := vs1[|acts| + |more1|];
      assert Stores(w.server, n, log[n].0, log[n].1);
      assert CanReplay(w1, |w.runners|, log[n].0, log[n].1);
      hide CanReplay, HasCaughtUp, HasReplayed, Stores, OnTime, Possible, Next;
      var more2;
      vs, more2 := Replays(vs1, acts + more1, |w.runners|, log[n].0, log[n].1);
      JoinExtensions(us, acts, vs1, more1, vs, more2);
      more := more1 + more2;
      CatchesUpByOne(w, log[..n], w1, log[n], vs[|acts| + |more|]);
      assert log[..n] + [log[n]] == log;
    }
  }

  /** Whatever a timely history has stored, up to the first position without a value, a new
      runner returns in a timely continuation, without starting a task. */
  lemma RestartReturnsEverythingStored(ws: seq<World>, acts: seq<Action>)
    returns (log: seq<(string, Bytes)>, vs: seq<World>, more: seq<Action>)
    requires IsTimelyHistory(ws, acts)
    ensures IsStoredLog(ws[|acts|].server, log)
    ensures IsTimelyHistory(vs, acts + more) && ws <= vs && HasCaughtUp(ws[|acts|], log, vs[|acts + more|])
  {
    log := StoredLog(ws, acts, |acts|);
    vs, more := NewRunnerReplaysLog(ws, acts, log);
    StaysTimely(ws, acts, vs, more);
  }
}
