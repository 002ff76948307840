/** Runners and server together, on one workflow: any number of runners, crashes anywhere,
    requests lost, delayed or delivered again, answers delayed or lost, a clock. No timing
    is assumed here. */
module System {
  import opened Wrappers
  import opened LeaseTime
  import opened Protocol
  import opened Runners

  /** Beside clock, server, runners and messages, a world keeps books of what came to pass. */
  datatype World = World(
    now: int, server: Workflow, runners: seq<State>,
    sent: set<Request>,            // requests on the wire; each may reach the server at any time, again and again
    answers: map<nat, Reply>,      // by runner: the answer on its way to the call the runner is waiting for
    issued: multiset<int>,         // tokens answered to a start whose runner has not begun yet
    held: map<nat, LeaseEntry>,    // by runner: the lease last granted to it, as the server keeps it
    freed: set<nat>,               // runners waiting for a release, since when the server has removed the lease there
    saved: set<Request>,           // checkpoint requests the server has accepted
    late: set<Request>,            // those among them whose sender no longer waited when they were first accepted
    produced: set<Request>,        // results returned by tasks, as the requests that carry them
    starts: multiset<int>, failures: multiset<int>, crashes: multiset<int>)  // of tasks, by position

  datatype Action =
    | Spawn(token: int)
    | Execute(i: nat, task: Task)
    | HandleCall(i: nat)
    | ReceiveAnswer(i: nat)
    | LoseCall(i: nat)
    | EndTask(i: nat, what: Stimulus)
    | RollBack(i: nat, what: Stimulus)
    | Crash(i: nat)
    | SendKeyRequest(i: nat, newKey: string)
    | SendFinish(i: nat, expireAfter: int)
    | Deliver(request: Request)
    | Tick(ms: nat)
    | DropLease(position: int)
    | CleanUp(leader: bool)

  predicate Calling(phase: Phase) {
    phase.Leasing? || phase.Releasing? || phase.Saving?
  }

  /** The call a runner is waiting for. */
  function CallOf(r: State): Request
    requires Calling(r.phase)
  {
    match r.phase
    case Leasing(task, _) => Lease(r.token, r.position, Timeout(task), task.key)
    case Releasing(_, _) => Release(r.position)
    case Saving(task, value, _) => Checkpoint(r.token, r.position, value, task.key)
  }

  predicate Sends(r: State, q: Request) {
    Calling(r.phase) && CallOf(r) == q
  }

  ghost predicate Awaited(w: World, q: Request) {
    exists i: nat :: i < |w.runners| && Sends(w.runners[i], q)
  }

  /** The runner's task is running, or its result is not yet with the server. */
  predicate Active(r: State, saved: set<Request>) {
    r.phase.Executing? || (r.phase.Saving? && CallOf(r) !in saved)
  }

  predicate Possible(w: World, a: Action) {
    match a
    case Spawn(token) => token in w.issued
    case Execute(i, _) => i < |w.runners| && w.runners[i].phase.Idle?
    case HandleCall(i) => i < |w.runners| && Calling(w.runners[i].phase) && i !in w.answers
    case ReceiveAnswer(i) => i < |w.runners| && i in w.answers && Awaits(w.runners[i].phase, Answer(w.answers[i]))
    case LoseCall(i) => i < |w.runners| && Awaits(w.runners[i].phase, NoAnswer)
    case EndTask(i, what) => i < |w.runners| && w.runners[i].phase.Executing? && Awaits(w.runners[i].phase, what)
    case RollBack(i, what) => i < |w.runners| && w.runners[i].phase.RollingBack? && Awaits(w.runners[i].phase, what)
    case Crash(i) => i < |w.runners| && !w.runners[i].phase.Crashed?
    case SendKeyRequest(i, _) => i < |w.runners| && w.runners[i].phase.Idle?
    case SendFinish(i, _) => i < |w.runners| && w.runners[i].phase.Idle?
    case Deliver(q) => q in w.sent || q.Start?
    case Tick(ms) => w.now + ms < I64_MAX
    case DropLease(_) => true
    case CleanUp(_) => true
  }

  /** The request the server handles in a step, if any. */
  function Handled(w: World, a: Action): Option<Request>
    requires Possible(w, a)
  {
    match a
    case HandleCall(i) => Some(CallOf(w.runners[i]))
    case Deliver(q) => Some(q)
    case DropLease(position) => Some(Evict(position))
    case CleanUp(leader) => Some(Cleanup(leader))
    case _ => None
  }

  /** Runner `i` moves on: what it now calls for goes on the wire, and no answer to an
      earlier call will reach it. */
  ghost function Move(w: World, i: nat, r: State): World
    requires i < |w.runners|
  {
    w.(runners := w.runners[i := r],
       sent := if Calling(r.phase) then w.sent + {CallOf(r)} else w.sent,
       answers := w.answers - {i}, freed := w.freed - {i})
  }

  function WaitingToRelease(w: World, p: int): set<nat> {
    set i: nat | i < |w.runners| && w.runners[i].phase.Releasing? && w.runners[i].position == p
  }

  /** The server handles a request. */
  ghost function Serve(w: World, q: Request): World {
    var out := Handle(w.server, w.now, q);
    var accepted := q.Checkpoint? && out.reply.Acknowledged?;
    w.(server := out.after,
       issued := if q.Start? then w.issued + multiset{out.reply.token} else w.issued,
       freed := if q.Release? || q.Checkpoint? then w.freed + WaitingToRelease(w, q.position) else w.freed,
       saved := if accepted then w.saved + {q} else w.saved,
       late := if accepted && q !in w.saved && !Awaited(w, q) then w.late + {q} else w.late)
  }

  /** Every request is answered in kind; a waiter is never told zero, which a runner would
      take for a grant; and a grant goes to the stored token only. */
  ghost function ReplyTo(w: World, q: Request): (reply: Reply)
    ensures q.Start? ==> reply.Started?
    ensures q.Lease? ==> IsLeaseReply(reply)
    ensures q.Checkpoint? ==> reply.Acknowledged? || reply.Refused?
    ensures reply.Remaining? ==> reply.ms > 0
    ensures reply.Granted? ==> q.Lease? && w.server.token == Some(q.token)
  {
    Handle(w.server, w.now, q).reply
  }

  /** The server handles the call of runner `i`, and its answer sets out. */
  ghost function Answered(w: World, i: nat): World
    requires Possible(w, HandleCall(i))
  {
    var q := CallOf(w.runners[i]);
    var reply := ReplyTo(w, q);
    Serve(w, q).(
      answers := w.answers[i := reply],
      held := if reply.Granted? then w.held[i := LeaseEntry(w.now, q.timeout)] else w.held)
  }

  ghost function Next(w: World, a: Action): World
    requires Possible(w, a)
  {
    if Moves(a) then Move(Booked(w, a), a.i, Moved(w, a))
    else match a
    case Spawn(token) =>
      w.(runners := w.runners + [State(token, 0, Idle(None), [])], issued := w.issued - multiset{token})
    case HandleCall(i) => Answered(w, i)
    case SendKeyRequest(i, newKey) =>
      w.(sent := w.sent + {MakeKey(w.runners[i].token, w.runners[i].position, newKey)})
    case SendFinish(i, expireAfter) =>
      w.(sent := w.sent + {Finish(w.runners[i].token, expireAfter)})
    case Deliver(q) => Serve(w, q)
    case Tick(ms) => w.(now := w.now + ms)
    case DropLease(position) => Serve(w, Evict(position))
    case CleanUp(leader) => Serve(w, Cleanup(leader))
  }

  predicate Moves(a: Action) {
    a.Execute? || a.ReceiveAnswer? || a.LoseCall? || a.EndTask? || a.RollBack? || a.Crash?
  }

  /** The event a runner meets with in a step. */
  function Met(w: World, a: Action): Event
    requires Possible(w, a) && Moves(a) && !a.Execute? && !a.Crash?
  {
    Event(w.now, if a.ReceiveAnswer? then Answer(w.answers[a.i]) else if a.LoseCall? then NoAnswer else a.what)
  }

  /** Where a step takes its runner. */
  function Moved(w: World, a: Action): State
    requires Possible(w, a) && Moves(a)
  {
    var r := w.runners[a.i];
    if a.Execute? then Begin(r, a.task)
    else if a.Crash? then r.(phase := Crashed)
    else React(r, Met(w, a))
  }

  /** Books the start, return, failure or crash of a task. */
  ghost function Booked(w: World, a: Action): World
    requires Possible(w, a) && Moves(a)
  {
    var r := w.runners[a.i];
    match a
    case ReceiveAnswer(i) => if w.answers[i].Granted? then w.(starts := w.starts + multiset{r.position}) else w
    case EndTask(_, what) =>
      if what.TaskReturned? then
        w.(produced := w.produced + {Checkpoint(r.token, r.position, what.value, r.phase.task.key)})
      else w.(failures := w.failures + multiset{r.position})
    case Crash(_) => if Active(r, w.saved) then w.(crashes := w.crashes + multiset{r.position}) else w
    case _ => w
  }

  /** A world in which nothing has happened yet; the lease cache may still hold entries. */
  ghost predicate Init(w: World) {
    && 0 <= w.now < I64_MAX
    && w.server.(leases := imap[]) == NewWorkflow && w.runners == []
    && w.sent == {} && w.answers == map[] && w.issued == multiset{} && w.held == map[] && w.freed == {}
    && w.saved == {} && w.late == {} && w.produced == {}
    && w.starts == multiset{} && w.failures == multiset{} && w.crashes == multiset{}
  }

  ghost predicate IsHistory(ws: seq<World>, acts: seq<Action>) {
    && |ws| == |acts| + 1 && Init(ws[0])
    && forall i {:trigger acts[i]} :: 0 <= i < |acts| ==> Possible(ws[i], acts[i]) && ws[i + 1] == Next(ws[i], acts[i])
  }

  /** A runner's step moves that runner and keeps books, no more. */
  lemma NextMovesAndBooks(w: World, a: Action)
    requires Possible(w, a) && Moves(a)
    ensures var w', moved := Next(w, a), Move(w, a.i, Moved(w, a));
            w' == moved.(produced := w'.produced, starts := w'.starts, failures := w'.failures, crashes := w'.crashes)
  {
    hide Moved, Active;
  }

  // ---------------------------------------------------------------- tokens

  /** Tokens, with their runner or on their way to one, are pairwise distinct, and none is
      beyond the stored one. */
  ghost predicate TokensOk(s: Workflow, runners: seq<State>, issued: multiset<int>) {
    && (forall i :: 0 <= i < |runners| ==>
          s.token.Some? && runners[i].token <= s.token.value && runners[i].token !in issued)
    && (forall i, j :: 0 <= i < j < |runners| ==> runners[i].token != runners[j].token)
    && (forall t :: t in issued ==> s.token.Some? && t <= s.token.value && issued[t] == 1)
  }

  lemma ServingKeepsTokens(w: World, q: Request)
    requires TokensOk(w.server, w.runners, w.issued)
    requires w.server.token.Some? ==> Serve(w, q).server.token.Some?
    ensures TokensOk(Serve(w, q).server, w.runners, Serve(w, q).issued)
  {
    var w' := Serve(w, q);
    OnlyStartsChangeToken(w.server, w.now, q);
    hide Handle;
    if q.Start? {
      assert w'.issued == w.issued + multiset{w'.server.token.value};
      forall i | 0 <= i < |w.runners|
        ensures w.runners[i].token < w'.server.token.value && w.runners[i].token !in w'.issued
      {
        assert w.runners[i].token <= w.server.token.value && w.runners[i].token !in w.issued;
      }
    } else {
      assert w'.issued == w.issued && w.runners != [] ==> w.runners[0].token <= w.server.token.value;
    }
  }

  lemma OnlyStartsChangeToken(s: Workflow, now: int, q: Request)
    ensures var out := Handle(s, now, q);
            if q.Start? then
              out.reply.Started? && out.after.token == Some(out.reply.token)
              && (s.token.Some? ==> out.reply.token == s.token.value + 1)
            else out.after.token.Some? ==> out.after.token == s.token
  {
  }

  lemma SpawningKeepsTokens(w: World, token: int)
    requires TokensOk(w.server, w.runners, w.issued) && Possible(w, Spawn(token))
    ensures TokensOk(w.server, Next(w, Spawn(token)).runners, Next(w, Spawn(token)).issued)
  {
  }

  lemma MovingKeepsTokens(w: World, a: Action)
    requires TokensOk(w.server, w.runners, w.issued) && Possible(w, a) && Moves(a)
    ensures TokensOk(w.server, Next(w, a).runners, w.issued)
    ensures Next(w, a).server == w.server && Next(w, a).issued == w.issued
  {
    var r := Moved(w, a);
    assert r.token == w.runners[a.i].token;
    NextMovesAndBooks(w, a);
    hide Moved, Next, TokensOk;
    SameTokens(w.server, w.runners, w.runners[a.i := r], w.issued);
  }

  lemma SameTokens(s: Workflow, runners: seq<State>, runners': seq<State>, issued: multiset<int>)
    requires TokensOk(s, runners, issued) && |runners'| == |runners|
    requires forall i :: 0 <= i < |runners| ==> runners'[i].token == runners[i].token
    ensures TokensOk(s, runners', issued)
  {
  }

  /** Nothing but the deletion of the token disturbs them. */
  lemma NextKeepsTokens(w: World, a: Action)
    requires TokensOk(w.server, w.runners, w.issued) && Possible(w, a)
    requires w.server.token.Some? ==> Next(w, a).server.token.Some?
    ensures TokensOk(Next(w, a).server, Next(w, a).runners, Next(w, a).issued)
  {
    if Moves(a) {
      MovingKeepsTokens(w, a);
    } else if Handled(w, a).Some? {
      ServingKeepsTokens(w, Handled(w, a).value);
      hide TokensOk, Handle;
    } else if a.Spawn? {
      SpawningKeepsTokens(w, a.token);
    }
  }

  // ---------------------------------------------------------------- provenance

  ghost predicate SavesTraceable(runners: seq<State>, produced: set<Request>) {
    forall i :: 0 <= i < |runners| && runners[i].phase.Saving? ==> CallOf(runners[i]) in produced
  }

  ghost predicate SentTraceable(sent: set<Request>, produced: set<Request>) {
    forall q :: q in sent && q.Checkpoint? ==> q in produced
  }

  ghost predicate RowTraceable(s: Workflow, produced: set<Request>, p: int) {
    p in s.rows && s.rows[p].value.Some? ==>
      exists t :: Checkpoint(t, p, s.rows[p].value.value, s.rows[p].key) in produced
  }

  /** What is saved, on the wire or stored was returned by a task. */
  ghost predicate Traceable(w: World) {
    && SavesTraceable(w.runners, w.produced) && SentTraceable(w.sent, w.produced)
    && forall p :: RowTraceable(w.server, w.produced, p)
  }

  lemma HandlingIsTraceable(s: Workflow, now: int, q: Request, produced: set<Request>)
    requires forall p :: RowTraceable(s, produced, p)
    requires q.Checkpoint? ==> q in produced
    ensures forall p :: RowTraceable(Handle(s, now, q).after, produced, p)
  {
    var s' := Handle(s, now, q).after;
    forall p
      ensures RowTraceable(s', produced, p)
    {
      assert RowTraceable(s, produced, p);
    }
  }

  lemma MoreIsTraceable(w: World, produced: set<Request>)
    requires Traceable(w) && w.produced <= produced
    ensures Traceable(w.(produced := produced))
  {
    forall p
      ensures RowTraceable(w.server, produced, p)
    {
      assert RowTraceable(w.server, w.produced, p);
    }
  }

  lemma MovingIsTraceable(w: World, i: nat, r: State)
    requires Traceable(w) && i < |w.runners| && (r.phase.Saving? ==> CallOf(r) in w.produced)
    ensures Traceable(Move(w, i, r))
  {
  }

  /** Only a task's return makes a runner save, and what it saves is what was returned. */
  lemma SavesWhatTaskReturned(r: State, e: Event)
    requires Awaits(r.phase, e.what) && React(r, e).phase.Saving?
    ensures r.phase.Saving? || (r.phase.Executing? && e.what.TaskReturned?)
    ensures CallOf(React(r, e)) ==
            if r.phase.Saving? then CallOf(r) else Checkpoint(r.token, r.position, e.what.value, r.phase.task.key)
  {
  }

  lemma NextKeepsTraceable(w: World, a: Action)
    requires Traceable(w) && Possible(w, a)
    ensures Traceable(Next(w, a))
  {
    hide Handle, React;
    if Handled(w, a).Some? {
      HandlingIsTraceable(w.server, w.now, Handled(w, a).value, w.produced);
    } else if Moves(a) {
      hide RowTraceable;
      var r := Moved(w, a);
      if r.phase.Saving? {
        SavesWhatTaskReturned(w.runners[a.i], Met(w, a));
      }
      MoreIsTraceable(w, Booked(w, a).produced);
      MovingIsTraceable(Booked(w, a), a.i, r);
    }
  }

  lemma {:induction false} AlwaysTraceable(ws: seq<World>, acts: seq<Action>, j: nat)
    requires IsHistory(ws, acts) && j <= |acts|
    ensures Traceable(ws[j])
  {
    if j > 0 {
      hide Next, Possible;
      AlwaysTraceable(ws, acts, j - 1);
      var a := acts[j - 1];
      NextKeepsTraceable(ws[j - 1], a);
    }
  }

  /** A booked result is a task of a runner that returned it. */
  lemma {:induction false} ResultsAreEvents(ws: seq<World>, acts: seq<Action>, j: nat, q: Request) returns (k: nat)
    requires IsHistory(ws, acts) && j <= |acts| && q in ws[j].produced
    ensures k < j && acts[k].EndTask? && acts[k].what.TaskReturned?
    ensures acts[k].i < |ws[k].runners| && ws[k].runners[acts[k].i].phase.Executing?
    ensures var r := ws[k].runners[acts[k].i];
            q == Checkpoint(r.token, r.position, acts[k].what.value, r.phase.task.key)
  {
    hide Handle, React, ReplyTo;
    k := j - 1;
    var a := acts[k];
    if q in ws[k].produced {
      k := ResultsAreEvents(ws, acts, k, q);
    }
  }

  /** Runner `n` is in one and the same state from `ws[i]` to `ws[j]`. */
  ghost predicate Rests(ws: seq<World>, n: nat, i: nat, j: nat)
    requires i <= j < |ws|
  {
    n < |ws[j].runners| && forall l :: i <= l <= j ==> n < |ws[l].runners| && ws[l].runners[n] == ws[j].runners[n]
  }

  /** An answer under way is left over from before a step, and then the runner waits on; or
      the step is the one that gives it. */
  lemma AnswerStep(w: World, a: Action, n: nat)
    requires Possible(w, a) && n in Next(w, a).answers
    ensures var w' := Next(w, a);
            if a == HandleCall(n) then
              && n < |w.runners| && Calling(w.runners[n].phase)
              && w'.runners == w.runners && w'.answers[n] == ReplyTo(w, CallOf(w.runners[n]))
            else
              && n in w.answers && w'.answers[n] == w.answers[n]
              && (n < |w.runners| ==> n < |w'.runners| && w'.runners[n] == w.runners[n])
  {
    if Moves(a) {
      NextMovesAndBooks(w, a);
      hide Next, Moved, Possible;
    } else {
      hide Handle, ReplyTo;
    }
  }

  /** Only a grant, or a remaining time of zero, makes a runner execute. */
  lemma ExecutesWhenGranted(r: State, e: Event)
    requires Awaits(r.phase, e.what) && React(r, e).phase.Executing?
    ensures r.phase.Leasing? && e.what.Answer? && (e.what.reply.Granted? || e.what.reply == Remaining(0))
    ensures React(r, e) == r.(phase := Executing(r.phase.task, e.now + Timeout(r.phase.task)))
  {
  }

  /** Only the receipt of an answer makes a runner execute. */
  lemma ExecutingStep(w: World, a: Action, n: nat)
    requires Possible(w, a) && n < |Next(w, a).runners| && Next(w, a).runners[n].phase.Executing?
    ensures n < |w.runners|
    ensures if a == ReceiveAnswer(n) then
              && n in w.answers && w.runners[n].phase.Leasing?
              && (w.answers[n].Granted? || w.answers[n] == Remaining(0))
              && Next(w, a).runners[n] ==
                 w.runners[n].(phase := Executing(w.runners[n].phase.task, w.now + Timeout(w.runners[n].phase.task)))
            else Next(w, a).runners[n] == w.runners[n]
  {
    hide Handle, ReplyTo, React;
    if Moves(a) && a.i == n {
      ExecutesWhenGranted(w.runners[n], Met(w, a));
    }
  }

  /** An answer under way was given by the server, in a step of the runner's own call, and
      the runner has been waiting for it ever since. */
  lemma {:induction false} AnswersAreGiven(ws: seq<World>, acts: seq<Action>, j: nat, n: nat) returns (i: nat)
    requires IsHistory(ws, acts) && j <= |acts| && n in ws[j].answers
    ensures i < j && acts[i] == HandleCall(n) && Rests(ws, n, i, j)
    ensures Calling(ws[j].runners[n].phase) && ws[j].answers[n] == ReplyTo(ws[i], CallOf(ws[j].runners[n]))
  {
    hide Next, Possible, ReplyTo;
    i := j - 1;
    var a := acts[i];
    AnswerStep(ws[i], a, n);
    if a != HandleCall(n) {
      i := AnswersAreGiven(ws, acts, j - 1, n);
    }
  }

  /** A task under way was begun when its runner was told of its grant, and the runner has
      been executing it ever since. */
  lemma {:induction false} TasksAreBegun(ws: seq<World>, acts: seq<Action>, j: nat, n: nat) returns (m: nat)
    requires IsHistory(ws, acts) && j <= |acts| && n < |ws[j].runners| && ws[j].runners[n].phase.Executing?
    ensures m < j && acts[m] == ReceiveAnswer(n) && Rests(ws, n, m + 1, j)
    ensures n < |ws[m].runners| && n in ws[m].answers && ws[m].answers[n].Granted?
    ensures var r := ws[m].runners[n];
            && r.phase.Leasing?
            && ws[j].runners[n] == r.(phase := Executing(r.phase.task, ws[m].now + Timeout(r.phase.task)))
  {
    hide Next, Possible, ReplyTo;
    m := j - 1;
    var a := acts[m];
    ExecutingStep(ws[m], a, n);
    if a == ReceiveAnswer(n) {
      var _ := AnswersAreGiven(ws, acts, m, n);
    } else {
      m := TasksAreBegun(ws, acts, j - 1, n);
    }
  }

  /** Provenance, with no assumption on timing: every stored value was returned (step `k`) by
      a task that its runner had been executing without pause since it was told (step `m`)
      that this very runner's lease request at that very position had been granted (step
      `i`), under the very key stored, while its token was the stored one. */
  lemma ValuesHaveProvenance(ws: seq<World>, acts: seq<Action>, j: nat, p: int) returns (n: nat, i: nat, m: nat, k: nat)
    requires IsHistory(ws, acts) && j <= |acts|
    requires p in ws[j].server.rows && ws[j].server.rows[p].value.Some?
    ensures i < m < k < j
    ensures acts[i] == HandleCall(n) && acts[m] == ReceiveAnswer(n)
    ensures acts[k] == EndTask(n, TaskReturned(ws[j].server.rows[p].value.value))
    ensures Rests(ws, n, i, m) && Rests(ws, n, m + 1, k)
    ensures var r, r' := ws[m].runners[n], ws[k].runners[n];
            && r.phase.Leasing? && r.phase.task.key == ws[j].server.rows[p].key && r.position == p
            && r' == r.(phase := Executing(r.phase.task, ws[m].now + Timeout(r.phase.task)))
            && ReplyTo(ws[i], CallOf(r)).Granted? && ws[i].server.token == Some(r.token)
  {
    hide Handle, React, Init, Next, Possible;
    var s := ws[j].server;
    AlwaysTraceable(ws, acts, j);
    assert RowTraceable(s, ws[j].produced, p);
    var token :| Checkpoint(token, p, s.rows[p].value.value, s.rows[p].key) in ws[j].produced;
    k := ResultsAreEvents(ws, acts, j, Checkpoint(token, p, s.rows[p].value.value, s.rows[p].key));
    n := acts[k].i;
    m := TasksAreBegun(ws, acts, k, n);
    i := AnswersAreGiven(ws, acts, m, n);
  }
}
