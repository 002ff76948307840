/** The protocol under its timing assumption: a runner that was granted a lease crashes, or
    gets its checkpoint or release handled, before the lease effectively ends; and no other
    release or new checkpoint is handled at its position in the meantime. Everything else
    stays as hostile as before. */
module Timely {
  import opened Wrappers
  import opened LeaseTime
  import opened Protocol
  import opened Runners
  import opened System

  /** From the moment the server grants runner `i` a lease until it handles the runner's
      checkpoint or a release, the runner holds the lease. */
  predicate Holds(w: World, i: nat)
    requires i < |w.runners|
  {
    var r := w.runners[i];
    if r.phase.Leasing? then i in w.answers && w.answers[i] == Granted
    else if r.phase.Releasing? then i !in w.freed
    else Active(r, w.saved)
  }

  /** Whoever holds the position is about to release it, or waits for this very checkpoint. */
  ghost predicate Undisturbed(w: World, q: Request)
    requires q.Release? || q.Checkpoint?
  {
    forall i: nat :: i < |w.runners| && Holds(w, i) && w.runners[i].position == q.position ==>
      w.runners[i].phase.Releasing? || Sends(w.runners[i], q)
  }

  ghost predicate InTime(w: World, q: Request) {
    match q
    case Release(_) => Undisturbed(w, q)
    case Checkpoint(_, _, _, _) => q in w.saved || Undisturbed(w, q)
    case Cleanup(leader) => Handle(w.server, w.now, q).after == w.server
    case _ => true
  }

  ghost predicate OnTime(w: World, a: Action)
    requires Possible(w, a)
  {
    && (a.Execute? ==> Timeout(a.task) > 0)
    && (a.Tick? ==> forall i: nat :: i < |w.runners| && Holds(w, i) && i in w.held ==>
          w.now + a.ms < EffectiveEnd(w.held[i]))
    && (Handled(w, a).Some? ==> InTime(w, Handled(w, a).value))
  }

  ghost predicate IsTimelyHistory(ws: seq<World>, acts: seq<Action>) {
    IsHistory(ws, acts) && forall i {:trigger acts[i]} :: 0 <= i < |acts| ==> OnTime(ws[i], acts[i])
  }

  // ---------------------------------------------------------------- the joint invariant

  /** Rows fill positions from zero without gaps, and a stored value is not leased. */
  ghost predicate RowsOk(s: Workflow) {
    && (forall p :: p in s.rows ==> p >= 0 && (p > 0 ==> p - 1 in s.rows))
    && (forall p :: p in s.rows && s.rows[p].value.Some? ==> p !in s.leases)
  }

  ghost predicate Matches(s: Workflow, p: int, key: string, value: Bytes) {
    p in s.rows && (s.rows[p].value.Some? ==> s.rows[p].key == key && s.rows[p].value.value == value)
  }

  ghost predicate Stores(s: Workflow, p: int, key: string, value: Bytes) {
    p in s.rows && s.rows[p].key == key && s.rows[p].value == Some(value)
  }

  /** A live runner still waits for its checkpoint to be accepted, or the row agrees with it. */
  ghost predicate SenderOk(s: Workflow, saved: set<Request>, q: Request, r: State)
    requires q.Checkpoint?
  {
    r.token == q.token && !r.phase.Crashed? ==>
      if q in saved then Matches(s, q.position, q.key, q.value) else Sends(r, q)
  }

  /** A position can be written once the one before it has been. */
  ghost predicate Writable(s: Workflow, p: int) {
    p >= 0 && (p > 0 ==> p - 1 in s.rows)
  }

  /** An accepted checkpoint closed its position: nothing is leased there any more. */
  ghost predicate CheckpointOk(w: World, q: Request)
    requires q.Checkpoint?
  {
    && Writable(w.server, q.position)
    && w.server.token.Some? && q.token <= w.server.token.value && q.token !in w.issued
    && (q in w.saved ==> q.position in w.server.rows && q.position !in w.server.leases)
    && forall i :: 0 <= i < |w.runners| ==> SenderOk(w.server, w.saved, q, w.runners[i])
  }

  ghost predicate MessagesOk(w: World) {
    && w.late <= w.saved <= w.sent && (forall q :: q in w.saved ==> q.Checkpoint?)
    && (forall q :: q in w.sent && q.Checkpoint? ==> CheckpointOk(w, q))
    && (forall q :: q in w.sent && q.MakeKey? ==> Writable(w.server, q.position))
    && (forall q :: q in w.sent ==> !q.Cleanup?)
    && (forall i :: i in w.answers ==> i < |w.runners|)
  }

  /** What a runner handed out so far is what the rows say. */
  ghost predicate ResultsOk(s: Workflow, r: State) {
    && r.position == |r.results|
    && forall p :: 0 <= p < |r.results| ==> Matches(s, p, r.results[p].0, r.results[p].1)
  }

  /** Runner `i`'s lease is the one in the cache and still good, and the runner's own
      deadline is not before its end. */
  ghost predicate Leased(w: World, i: nat, r: State) {
    && (r.phase.Leasing? || r.phase.Executing? || r.phase.Saving? || r.phase.Releasing?)
    && i in w.held && r.position in w.server.leases && w.server.leases[r.position] == w.held[i]
    && w.held[i].timeout == Timeout(r.phase.task)
    && w.held[i].createdAt <= w.now < EffectiveEnd(w.held[i])
    && (!r.phase.Leasing? ==> w.held[i].createdAt + w.held[i].timeout <= r.phase.deadline)
  }

  ghost predicate AnswerOk(w: World, r: State, reply: Reply) {
    && Awaits(r.phase, Answer(reply))
    && (reply.Stored? ==> Stores(w.server, r.position, r.phase.task.key, reply.value))
    && (reply.Remaining? ==> reply.ms > 0)
    && (reply.Acknowledged? ==> CallOf(r) in w.saved)
  }

  ghost predicate RunnerOk(w: World, i: nat)
    requires i < |w.runners|
  {
    var r := w.runners[i];
    && ResultsOk(w.server, r)
    && (r.phase.Leasing? ==> Timeout(r.phase.task) > 0)
    && (Holds(w, i) ==> Leased(w, i, r))
    && (i in w.answers ==> AnswerOk(w, r, w.answers[i]))
    && (r.phase.Saving? ==> CallOf(r) in w.sent)
  }

  ghost predicate Exclusive(w: World) {
    forall i: nat, j: nat :: i < j < |w.runners| && Holds(w, i) && Holds(w, j) ==>
      w.runners[i].position != w.runners[j].position
  }

  ghost predicate Inv(w: World) {
    && 0 <= w.now < I64_MAX
    && TokensOk(w.server, w.runners, w.issued) && RowsOk(w.server) && MessagesOk(w)
    && (forall i: nat :: i < |w.runners| ==> RunnerOk(w, i))
    && Exclusive(w)
  }

  // ---------------------------------------------------------------- server steps

  /** Rows stay, with key and value; the token only grows. */
  ghost predicate Succeeds(s: Workflow, s': Workflow) {
    && (forall p :: p in s.rows ==>
          p in s'.rows && s'.rows[p].key == s.rows[p].key && s'.rows[p].value == s.rows[p].value)
    && (s.token.Some? ==> s'.token.Some? && s.token.value <= s'.token.value)
  }

  /** Checkpoints and key requests come from runners; all others may come from anyone. */
  ghost predicate Known(w: World, q: Request) {
    q.Checkpoint? || q.MakeKey? ==> q in w.sent
  }

  lemma HandlingSucceeds(w: World, q: Request)
    requires RowsOk(w.server) && MessagesOk(w) && Known(w, q) && InTime(w, q)
    ensures Succeeds(w.server, Handle(w.server, w.now, q).after)
  {
  }

  lemma HandlingKeepsRowsOk(w: World, q: Request)
    requires RowsOk(w.server) && MessagesOk(w) && Known(w, q) && InTime(w, q)
    ensures RowsOk(Handle(w.server, w.now, q).after)
  {
  }

  lemma HolderHasLease(w: World, i: nat)
    requires Inv(w) && i < |w.runners| && Holds(w, i)
    ensures Leased(w, i, w.runners[i])
    ensures var p := w.runners[i].position; p in w.server.rows ==> w.server.rows[p].value.None?
  {
    assert RunnerOk(w, i);
  }

  /** A holder's first checkpoint is accepted and closes the position; its value is stored
      exactly if no key was generated there in the meantime. */
  lemma FirstSave(w: World, i: nat)
    requires Inv(w) && i < |w.runners| && w.runners[i].phase.Saving? && CallOf(w.runners[i]) !in w.saved
    ensures var r := w.runners[i];
            var q := CallOf(r);
            var w' := Serve(w, q);
            && ReplyTo(w, q) == Acknowledged(w.server.token.value > r.token)
            && w'.saved == w.saved + {q} && w'.late == w.late
            && w'.server.leases == w.server.leases - {r.position}
            && Matches(w'.server, q.position, q.key, q.value)
            && (w'.server.rows[q.position].value == Some(q.value) <==> q.position !in w.server.rows)
  {
    HolderHasLease(w, i);
    ProtectedUntilEffectiveEnd(w.held[i], w.now);
    assert Sends(w.runners[i], CallOf(w.runners[i]));
  }

  /** Handling a request makes nobody a holder. */
  lemma ServingEndsHolds(w: World, q: Request, i: nat)
    requires i < |w.runners| && Holds(Serve(w, q), i)
    ensures Holds(w, i)
  {
    hide Handle;
  }

  /** A handled release or checkpoint takes the lease of a holder only as it ends the hold. */
  lemma RemovalEndsHold(w: World, q: Request, i: nat)
    requires Inv(w) && Known(w, q) && InTime(w, q) && (q.Release? || q.Checkpoint?)
    requires i < |w.runners| && Holds(w, i) && w.runners[i].position == q.position
    ensures !Holds(Serve(w, q), i)
  {
    HolderHasLease(w, i);
    if w.runners[i].phase.Saving? {
      FirstSave(w, i);
    }
  }

  lemma ServingKeepsLease(w: World, q: Request, i: nat)
    requires Inv(w) && Known(w, q) && InTime(w, q) && i < |w.runners| && Holds(Serve(w, q), i)
    ensures Leased(Serve(w, q), i, w.runners[i])
  {
    ServingEndsHolds(w, q, i);
    HolderHasLease(w, i);
    if (q.Release? || q.Checkpoint?) && q.position == w.runners[i].position {
      RemovalEndsHold(w, q, i);
      assert false;
    } else {
      GoodLeaseStays(w.server, w.now, q, w.runners[i].position);
    }
  }

  lemma ServingKeepsRunnerOk(w: World, q: Request, i: nat)
    requires Inv(w) && Known(w, q) && InTime(w, q) && i < |w.runners|
    ensures RunnerOk(Serve(w, q), i)
  {
    HandlingSucceeds(w, q);
    if Holds(Serve(w, q), i) {
      ServingKeepsLease(w, q, i);
    }
    assert RunnerOk(w, i);
    hide Handle, Holds, Leased, Inv;
  }

  /** What an accepted checkpoint leaves behind. */
  lemma AcceptedMeansClosed(w: World, q: Request)
    requires Inv(w) && q.Checkpoint? && q in w.sent && InTime(w, q) && q in Serve(w, q).saved
    ensures var s' := Serve(w, q).server;
            && q.position in s'.rows && q.position !in s'.leases
            && forall i :: 0 <= i < |w.runners| ==> SenderOk(s', Serve(w, q).saved, q, w.runners[i])
  {
    var w' := Serve(w, q);
    assert CheckpointOk(w, q);
    HandlingSucceeds(w, q);
    forall i | 0 <= i < |w.runners|
      ensures SenderOk(w'.server, w'.saved, q, w.runners[i])
    {
      assert SenderOk(w.server, w.saved, q, w.runners[i]);
      if q !in w.saved && Sends(w.runners[i], q) {
        FirstSave(w, i);
      }
    }
  }

  lemma ServingKeepsCheckpointOk(w: World, q: Request, q': Request)
    requires Inv(w) && Known(w, q) && InTime(w, q) && q' in w.sent && q'.Checkpoint?
    ensures CheckpointOk(Serve(w, q), q')
  {
    var w' := Serve(w, q);
    assert CheckpointOk(w, q');
    HandlingSucceeds(w, q);
    if q' == q && q in w'.saved {
      AcceptedMeansClosed(w, q);
    } else {
      forall i | 0 <= i < |w.runners|
        ensures SenderOk(w'.server, w'.saved, q', w.runners[i])
      {
        assert SenderOk(w.server, w.saved, q', w.runners[i]);
      }
    }
  }

  lemma ServingKeepsMessages(w: World, q: Request)
    requires Inv(w) && Known(w, q) && InTime(w, q)
    ensures MessagesOk(Serve(w, q))
  {
    HandlingSucceeds(w, q);
    forall q' | q' in w.sent && q'.Checkpoint?
      ensures CheckpointOk(Serve(w, q), q')
    {
      ServingKeepsCheckpointOk(w, q, q');
    }
    hide Handle, CheckpointOk, InTime;
  }

  lemma ServingKeepsInv(w: World, q: Request)
    requires Inv(w) && Known(w, q) && InTime(w, q)
    ensures Inv(Serve(w, q))
  {
    var w' := Serve(w, q);
    HandlingSucceeds(w, q);
    ServingKeepsTokens(w, q);
    HandlingKeepsRowsOk(w, q);
    ServingKeepsMessages(w, q);
    forall i: nat | i < |w.runners|
      ensures RunnerOk(w', i) && (Holds(w', i) ==> Holds(w, i))
    {
      ServingKeepsRunnerOk(w, q, i);
      if Holds(w', i) {
        ServingEndsHolds(w, q, i);
      }
    }
    hide Handle, Holds, RunnerOk, InTime, TokensOk, RowsOk, MessagesOk;
  }

  // ---------------------------------------------------------------- answers

  /** A granted position has neither a row nor a holder. */
  lemma GrantMeansFree(w: World, i: nat)
    requires Inv(w) && Possible(w, HandleCall(i)) && ReplyTo(w, CallOf(w.runners[i])).Granted?
    ensures var p := w.runners[i].position;
            && p !in w.server.rows
            && forall j: nat :: j < |w.runners| && Holds(w, j) ==> w.runners[j].position != p
  {
    forall j: nat | j < |w.runners| && Holds(w, j)
      ensures w.runners[j].position != w.runners[i].position
    {
      HolderHasLease(w, j);
      ProtectedUntilEffectiveEnd(w.held[j], w.now);
    }
  }

  /** What the server's answer says holds at the server. */
  lemma AnswersAreTrue(w: World, i: nat)
    requires Inv(w) && Possible(w, HandleCall(i)) && InTime(w, CallOf(w.runners[i]))
    ensures AnswerOk(Answered(w, i), w.runners[i], Answered(w, i).answers[i])
    ensures Answered(w, i).answers[i].Granted? ==> Leased(Answered(w, i), i, w.runners[i])
  {
    assert RunnerOk(w, i);
    if w.runners[i].phase.Leasing? {
      CacheCoversLease(Timeout(w.runners[i].phase.task));
    }
  }

  /** An answer concerns nobody but its runner. */
  lemma AnsweringLeavesOthers(w: World, i: nat, j: nat)
    requires Inv(w) && Possible(w, HandleCall(i)) && InTime(w, CallOf(w.runners[i])) && j < |w.runners| && j != i
    requires RunnerOk(Serve(w, CallOf(w.runners[i])), j)
    ensures RunnerOk(Answered(w, i), j)
    ensures Holds(Answered(w, i), j) <==> Holds(Serve(w, CallOf(w.runners[i])), j)
  {
    hide Handle, ResultsOk, Inv, InTime;
  }

  /** Whoever has been answered holds the position exactly if it has been granted. */
  lemma AnsweredRunnerIsOk(w: World, i: nat)
    requires Inv(w) && Possible(w, HandleCall(i)) && InTime(w, CallOf(w.runners[i]))
    ensures RunnerOk(Answered(w, i), i)
    ensures Holds(Answered(w, i), i) <==> Answered(w, i).answers[i].Granted?
  {
    var q := CallOf(w.runners[i]);
    assert RunnerOk(w, i);
    ServingKeepsRunnerOk(w, q, i);
    AnswersAreTrue(w, i);
    if Holds(w, i) && (q.Release? || q.Checkpoint?) {
      RemovalEndsHold(w, q, i);
    }
    hide Handle, ResultsOk, Inv, InTime;
  }

  lemma CallsAreKnown(w: World, i: nat)
    requires Inv(w) && Possible(w, HandleCall(i))
    ensures Known(w, CallOf(w.runners[i]))
  {
    assert RunnerOk(w, i);
  }

  lemma AnsweredKeepsExclusive(w: World, i: nat)
    requires Inv(w) && Possible(w, HandleCall(i)) && InTime(w, CallOf(w.runners[i]))
    ensures Exclusive(Answered(w, i))
  {
    var w2 := Answered(w, i);
    AnsweredRunnerIsOk(w, i);
    if w2.answers[i].Granted? {
      GrantMeansFree(w, i);
    }
    forall j: nat | j < |w.runners| && j != i && Holds(w2, j)
      ensures Holds(w, j)
    {
      ServingEndsHolds(w, CallOf(w.runners[i]), j);
    }
    hide Handle, Holds, InTime, ReplyTo, TokensOk, RowsOk, MessagesOk, RunnerOk;
  }

  lemma AnsweredIsServed(w: World, i: nat)
    requires Possible(w, HandleCall(i)) && MessagesOk(w)
    ensures var w1, w2 := Serve(w, CallOf(w.runners[i])), Answered(w, i);
            && w2 == w1.(answers := w2.answers, held := w2.held) && w1.now == w.now && w1.runners == w.runners
            && forall j :: j in w2.answers ==> j < |w2.runners|
  {
    hide Handle, ReplyTo;
  }

  lemma AnsweredKeepsInv(w: World, i: nat)
    requires Inv(w) && Possible(w, HandleCall(i)) && InTime(w, CallOf(w.runners[i]))
    ensures Inv(Answered(w, i))
  {
    var q := CallOf(w.runners[i]);
    var w1, w2 := Serve(w, q), Answered(w, i);
    CallsAreKnown(w, i);
    ServingKeepsInv(w, q);
    AnsweredIsServed(w, i);
    AnsweredRunnerIsOk(w, i);
    AnsweredKeepsExclusive(w, i);
    hide Serve, Answered, Holds, RunnerOk, InTime, TokensOk, RowsOk, MessagesOk, Exclusive, Possible;
    forall j: nat | j < |w.runners| && j != i
      ensures RunnerOk(w2, j)
    {
      AnsweringLeavesOthers(w, i, j);
    }
    MessagesCarry(w1, w2);
  }

  /** Messages depend neither on the clock nor on leases granted or books kept. */
  lemma MessagesCarry(w: World, w': World)
    requires MessagesOk(w) && w'.server == w.server && w'.runners == w.runners && w'.issued == w.issued
    requires w'.sent == w.sent && w'.saved == w.saved && w'.late == w.late
    requires forall i :: i in w'.answers ==> i < |w'.runners|
    ensures MessagesOk(w')
  {
    forall q | q in w'.sent && q.Checkpoint?
      ensures CheckpointOk(w', q)
    {
      assert CheckpointOk(w, q);
    }
  }

  // ---------------------------------------------------------------- runner steps

  /** Once it has moved to `r`, runner `i` holds at most what it held before; and it does
      not walk away from a checkpoint nobody has accepted, unless it crashes. */
  ghost predicate GoodMove(w: World, i: nat, r: State)
    requires i < |w.runners|
  {
    var before := w.runners[i];
    && !before.phase.Crashed? && r.token == before.token
    && ResultsOk(w.server, r)
    && (r.phase.Leasing? ==> Timeout(r.phase.task) > 0)
    && (Active(r, w.saved) || r.phase.Releasing? ==> Holds(w, i) && r.position == before.position && Leased(w, i, r))
    && (before.phase.Saving? && CallOf(before) !in w.saved ==> r.phase.Crashed? || Sends(r, CallOf(before)))
  }

  lemma MovingKeepsSender(w: World, i: nat, r: State, q: Request)
    requires Inv(w) && i < |w.runners| && GoodMove(w, i, r) && q in w.sent && q.Checkpoint?
    ensures SenderOk(w.server, w.saved, q, r)
  {
    assert CheckpointOk(w, q);
    assert SenderOk(w.server, w.saved, q, w.runners[i]);
  }

  /** The checkpoint of a runner that begins to save, or goes on saving. */
  lemma NewCheckpointIsOk(w: World, i: nat, r: State)
    requires Inv(w) && i < |w.runners| && GoodMove(w, i, r) && r.phase.Saving?
    ensures CheckpointOk(Move(w, i, r), CallOf(r))
  {
    var q, w' := CallOf(r), Move(w, i, r);
    if r.position > 0 {
      assert Matches(w.server, r.position - 1, r.results[r.position - 1].0, r.results[r.position - 1].1);
    }
    if q in w.saved {
      assert CheckpointOk(w, q);
      MovingKeepsSender(w, i, r, q);
    }
    forall j | 0 <= j < |w.runners|
      ensures SenderOk(w.server, w.saved, q, w'.runners[j])
    {
      assert j != i && q in w.saved ==> SenderOk(w.server, w.saved, q, w.runners[j]);
    }
  }

  lemma MovingKeepsMessages(w: World, i: nat, r: State)
    requires Inv(w) && i < |w.runners| && GoodMove(w, i, r)
    ensures MessagesOk(Move(w, i, r))
  {
    var w' := Move(w, i, r);
    forall q | q in w'.sent && q.Checkpoint?
      ensures CheckpointOk(w', q)
    {
      if q in w.sent {
        assert CheckpointOk(w, q);
        MovingKeepsSender(w, i, r, q);
      } else {
        NewCheckpointIsOk(w, i, r);
      }
    }
    hide CheckpointOk, GoodMove;
  }

  lemma MovingKeepsRunnerOk(w: World, i: nat, r: State, j: nat)
    requires Inv(w) && i < |w.runners| && GoodMove(w, i, r) && j < |w.runners|
    ensures RunnerOk(Move(w, i, r), j)
    ensures Holds(Move(w, i, r), j) ==> Holds(w, j) && Move(w, i, r).runners[j].position == w.runners[j].position
  {
    assert RunnerOk(w, j);
    hide MessagesOk, RowsOk, Inv, ResultsOk;
  }

  lemma MovingKeepsInv(w: World, i: nat, r: State)
    requires Inv(w) && i < |w.runners| && GoodMove(w, i, r)
    ensures Inv(Move(w, i, r))
  {
    MovingKeepsMessages(w, i, r);
    forall j: nat | j < |w.runners|
      ensures RunnerOk(Move(w, i, r), j)
      ensures Holds(Move(w, i, r), j) ==> Holds(w, j) && Move(w, i, r).runners[j].position == w.runners[j].position
    {
      MovingKeepsRunnerOk(w, i, r, j);
    }
    hide Holds, RunnerOk, MessagesOk, RowsOk;
  }

  /** Advancing with a result the rows agree with. */
  lemma AdvanceIsOk(s: Workflow, r: State, key: string, value: Bytes)
    requires ResultsOk(s, r) && Matches(s, r.position, key, value)
    ensures ResultsOk(s, Advance(r, key, value))
  {
  }

  /** The client's deadline is never before the effective end of its lease, so a runner that
      stops saving, acknowledged or not, has been accepted already. */
  lemma StopsSavingWhenAccepted(w: World, i: nat, e: Event)
    requires Inv(w) && i < |w.runners| && w.runners[i].phase.Saving? && Awaits(w.runners[i].phase, e.what)
    requires e.now == w.now && (e.what.Answer? ==> i in w.answers && e.what.reply == w.answers[i])
    ensures React(w.runners[i], e).phase.Saving? || CallOf(w.runners[i]) in w.saved
    ensures GoodMove(w, i, React(w.runners[i], e))
  {
    var r := w.runners[i];
    assert RunnerOk(w, i);
    if CallOf(r) in w.saved {
      assert CheckpointOk(w, CallOf(r));
      assert SenderOk(w.server, w.saved, CallOf(r), r);
      AdvanceIsOk(w.server, r, r.phase.task.key, r.phase.value);
    }
    hide MessagesOk, RowsOk, ResultsOk, TokensOk, Exclusive;
  }

  lemma LeaseAnswerIsGood(w: World, i: nat)
    requires Inv(w) && Possible(w, ReceiveAnswer(i)) && w.runners[i].phase.Leasing?
    ensures GoodMove(w, i, React(w.runners[i], Event(w.now, Answer(w.answers[i]))))
  {
    var r, reply := w.runners[i], w.answers[i];
    assert RunnerOk(w, i);
    if reply.Stored? {
      AdvanceIsOk(w.server, r, r.phase.task.key, reply.value);
    }
    hide MessagesOk, RowsOk, TokensOk, Exclusive;
  }

  lemma EndTaskIsGood(w: World, i: nat, what: Stimulus)
    requires Inv(w) && Possible(w, EndTask(i, what))
    ensures GoodMove(w, i, React(w.runners[i], Event(w.now, what)))
    ensures what.TaskReturned? ==> React(w.runners[i], Event(w.now, what)).phase.Saving?
  {
    assert RunnerOk(w, i);
    hide MessagesOk, RowsOk, TokensOk, Exclusive;
  }

  lemma MovedIsGood(w: World, a: Action)
    requires Inv(w) && Possible(w, a) && Moves(a) && OnTime(w, a)
    ensures a.i < |w.runners| && GoodMove(w, a.i, Moved(w, a))
  {
    var r := w.runners[a.i];
    if r.phase.Saving? && !a.Crash? {
      StopsSavingWhenAccepted(w, a.i, Met(w, a));
    } else if r.phase.Leasing? && a.ReceiveAnswer? {
      LeaseAnswerIsGood(w, a.i);
    } else if a.EndTask? {
      EndTaskIsGood(w, a.i, a.what);
    } else {
      assert RunnerOk(w, a.i);
      hide MessagesOk, RowsOk, TokensOk, Exclusive;
    }
  }

  /** The books a world keeps of tasks have no bearing on the invariant. */
  lemma BooksDoNotMatter(w: World, w': World)
    requires Inv(w)
    requires w' == w.(produced := w'.produced, starts := w'.starts, failures := w'.failures, crashes := w'.crashes)
    ensures Inv(w')
  {
    forall i: nat | i < |w.runners|
      ensures RunnerOk(w', i)
    {
      assert RunnerOk(w, i);
    }
    MessagesCarry(w, w');
    hide MessagesOk, RunnerOk;
  }

  lemma MovesKeepInv(w: World, a: Action)
    requires Inv(w) && Possible(w, a) && Moves(a) && OnTime(w, a)
    ensures Inv(Next(w, a))
  {
    hide Inv, GoodMove, Possible, OnTime, Moved, Next, Move;
    MovedIsGood(w, a);
    MovingKeepsInv(w, a.i, Moved(w, a));
    NextMovesAndBooks(w, a);
    BooksDoNotMatter(Move(w, a.i, Moved(w, a)), Next(w, a));
  }

  lemma SpawningKeepsMessages(w: World, token: int)
    requires MessagesOk(w) && Possible(w, Spawn(token))
    ensures MessagesOk(Next(w, Spawn(token)))
  {
    var w' := Next(w, Spawn(token));
    forall q | q in w.sent && q.Checkpoint?
      ensures CheckpointOk(w', q)
    {
      assert CheckpointOk(w, q);
    }
    hide CheckpointOk;
  }

  lemma SpawningKeepsInv(w: World, token: int)
    requires Inv(w) && Possible(w, Spawn(token))
    ensures Inv(Next(w, Spawn(token)))
  {
    var w' := Next(w, Spawn(token));
    SpawningKeepsTokens(w, token);
    SpawningKeepsMessages(w, token);
    forall i: nat | i < |w'.runners|
      ensures RunnerOk(w', i) && (Holds(w', i) ==> i < |w.runners| && Holds(w, i))
    {
      assert i < |w.runners| ==> RunnerOk(w, i);
    }
    hide TokensOk, RowsOk, MessagesOk, RunnerOk, Holds;
  }

  lemma SendingKeepsInv(w: World, i: nat, q: Request)
    requires Inv(w) && i < |w.runners|
    requires q.Finish? || (q.MakeKey? && q.position == w.runners[i].position)
    ensures Inv(w.(sent := w.sent + {q}))
  {
    var r, w' := w.runners[i], w.(sent := w.sent + {q});
    assert RunnerOk(w, i);
    if r.position > 0 {
      assert Matches(w.server, r.position - 1, r.results[r.position - 1].0, r.results[r.position - 1].1);
    }
    forall j: nat | j < |w.runners|
      ensures RunnerOk(w', j)
    {
      assert RunnerOk(w, j);
    }
    forall q' | q' in w.sent && q'.Checkpoint?
      ensures CheckpointOk(w', q')
    {
      assert CheckpointOk(w, q');
    }
  }

  lemma TickKeepsInv(w: World, ms: nat)
    requires Inv(w) && Possible(w, Tick(ms)) && OnTime(w, Tick(ms))
    ensures Inv(Next(w, Tick(ms)))
  {
    var w' := Next(w, Tick(ms));
    forall i: nat | i < |w.runners|
      ensures RunnerOk(w', i)
    {
      assert RunnerOk(w, i);
    }
    MessagesCarry(w, w');
    hide MessagesOk, RunnerOk, OnTime;
  }

  /** Every timely step of runners, network, clock and server keeps the invariant. */
  lemma NextKeepsInv(w: World, a: Action)
    requires Inv(w) && Possible(w, a) && OnTime(w, a)
    ensures Inv(Next(w, a))
  {
    if Moves(a) {
      MovesKeepInv(w, a);
    } else {
      match a
      case HandleCall(i) => AnsweredKeepsInv(w, i);
      case Spawn(token) => SpawningKeepsInv(w, token);
      case SendKeyRequest(i, newKey) =>
        SendingKeepsInv(w, i, MakeKey(w.runners[i].token, w.runners[i].position, newKey));
      case SendFinish(i, expireAfter) => SendingKeepsInv(w, i, Finish(w.runners[i].token, expireAfter));
      case Deliver(q) => ServingKeepsInv(w, q);
      case Tick(ms) => TickKeepsInv(w, ms);
      case DropLease(position) => ServingKeepsInv(w, Evict(position));
      case CleanUp(leader) => ServingKeepsInv(w, Cleanup(leader));
    }
  }

  lemma InitIsOk(w: World)
    requires Init(w)
    ensures Inv(w)
  {
  }

  lemma {:induction false} AlwaysInv(ws: seq<World>, acts: seq<Action>, j: nat)
    requires IsTimelyHistory(ws, acts) && j <= |acts|
    ensures Inv(ws[j])
  {
    hide Next, OnTime, Possible, Inv;
    if j > 0 {
      AlwaysInv(ws, acts, j - 1);
      var a := acts[j - 1];
      NextKeepsInv(ws[j - 1], a);
    } else {
      InitIsOk(ws[0]);
    }
  }
}
