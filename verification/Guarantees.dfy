/** What the protocol guarantees in every timely history: one holder per position, a count
    of task starts, and that all runners together return what a single undisturbed run
    returns. */
module Guarantees {
  import opened Wrappers
  import opened LeaseTime
  import opened Protocol
  import opened Runners
  import opened System
  import opened Timely
  import opened Segments

  // ---------------------------------------------------------------- mutual exclusion

  /** From grant to delivery a position has one holder, and the cached lease is the one that
      was granted to it, with time left. In particular at most one live runner executes a
      task there, or still has to deliver its result. */
  lemma OneHolderPerPosition(ws: seq<World>, acts: seq<Action>, j: nat, i: nat, k: nat)
    requires IsTimelyHistory(ws, acts) && j <= |acts| && i < |ws[j].runners| && k < |ws[j].runners|
    requires Holds(ws[j], i)
    ensures Holds(ws[j], k) && ws[j].runners[k].position == ws[j].runners[i].position ==> k == i
    ensures Active(ws[j].runners[k], ws[j].saved) ==> Holds(ws[j], k)
    ensures var r, s := ws[j].runners[i], ws[j].server;
            && i in ws[j].held && r.position in s.leases && s.leases[r.position] == ws[j].held[i]
            && TimeLeft(s.leases[r.position], ws[j].now) > 0
            && (r.position in s.rows ==> s.rows[r.position].value.None?)
  {
    AlwaysInv(ws, acts, j);
    HolderHasLease(ws[j], i);
    ProtectedUntilEffectiveEnd(ws[j].held[i], ws[j].now);
  }

  /** A checkpoint its runner waits for is accepted, however often it was handled before. */
  lemma SavesAreAccepted(ws: seq<World>, acts: seq<Action>, j: nat, i: nat)
    requires IsTimelyHistory(ws, acts) && j <= |acts| && i < |ws[j].runners| && ws[j].runners[i].phase.Saving?
    ensures ws[j].server.token.Some?
    ensures ReplyTo(ws[j], CallOf(ws[j].runners[i]))
            == Acknowledged(ws[j].server.token.value > ws[j].runners[i].token)
  {
    AlwaysInv(ws, acts, j);
    var w, r := ws[j], ws[j].runners[i];
    assert RunnerOk(w, i);
    if CallOf(r) in w.saved {
      assert CheckpointOk(w, CallOf(r));
    } else {
      FirstSave(w, i);
    }
  }

  // ---------------------------------------------------------------- counting task starts

  /** A result at `p` was accepted while its runner waited for that. */
  ghost predicate DoneAt(w: World, p: int) {
    exists q :: q in w.saved && q !in w.late && q.Checkpoint? && q.position == p
  }

  ghost predicate ActiveAt(runners: seq<State>, saved: set<Request>, p: int) {
    exists i :: 0 <= i < |runners| && Active(runners[i], saved) && runners[i].position == p
  }

  /** A task is under way at `p`, or has been done. */
  ghost predicate Busy(w: World, p: int) {
    DoneAt(w, p) || ActiveAt(w.runners, w.saved, p)
  }

  ghost predicate Counted(w: World) {
    forall p :: w.starts[p] == w.failures[p] + w.crashes[p] + (if Busy(w, p) then 1 else 0)
  }

  /** Runner `i` stays as active as it was, or is idle before and after. */
  lemma SteadyMove(w: World, i: nat, r: State)
    requires i < |w.runners|
    requires Active(r, w.saved) <==> Active(w.runners[i], w.saved)
    requires Active(r, w.saved) ==> r.position == w.runners[i].position
    ensures forall p :: Busy(Move(w, i, r), p) <==> Busy(w, p)
  {
    var w' := Move(w, i, r);
    forall p
      ensures Busy(w', p) <==> Busy(w, p)
    {
      if ActiveAt(w.runners, w.saved, p) {
        var j :| 0 <= j < |w.runners| && Active(w.runners[j], w.saved) && w.runners[j].position == p;
        assert Active(w'.runners[j], w.saved) && w'.runners[j].position == p;
      }
      if ActiveAt(w'.runners, w.saved, p) {
        var j :| 0 <= j < |w'.runners| && Active(w'.runners[j], w.saved) && w'.runners[j].position == p;
        assert Active(w.runners[j], w.saved) && w.runners[j].position == p;
      }
    }
  }

  lemma StartingMove(w: World, i: nat, r: State)
    requires i < |w.runners| && !Active(w.runners[i], w.saved) && Active(r, w.saved)
    ensures forall p :: Busy(Move(w, i, r), p) <==> Busy(w, p) || p == r.position
  {
    var w' := Move(w, i, r);
    forall p
      ensures Busy(w', p) <==> Busy(w, p) || p == r.position
    {
      assert w'.runners[i] == r;
      if ActiveAt(w.runners, w.saved, p) {
        var j :| 0 <= j < |w.runners| && Active(w.runners[j], w.saved) && w.runners[j].position == p;
        assert Active(w'.runners[j], w.saved) && w'.runners[j].position == p;
      }
      if ActiveAt(w'.runners, w.saved, p) {
        var j :| 0 <= j < |w'.runners| && Active(w'.runners[j], w.saved) && w'.runners[j].position == p;
        assert j != i ==> Active(w.runners[j], w.saved) && w.runners[j].position == p;
      }
    }
  }

  lemma StoppingMove(w: World, i: nat, r: State)
    requires Inv(w) && i < |w.runners| && Active(w.runners[i], w.saved) && !Active(r, w.saved)
    ensures forall p :: Busy(Move(w, i, r), p) <==> Busy(w, p) && p != w.runners[i].position
    ensures Busy(w, w.runners[i].position)
  {
    var w' := Move(w, i, r);
    var at := w.runners[i].position;
    HolderIsAlone(w, i);
    forall p
      ensures Busy(w', p) <==> Busy(w, p) && p != at
    {
      if ActiveAt(w.runners, w.saved, p) && p != at {
        var j :| 0 <= j < |w.runners| && Active(w.runners[j], w.saved) && w.runners[j].position == p;
        assert Active(w'.runners[j], w.saved) && w'.runners[j].position == p;
      }
      if ActiveAt(w'.runners, w.saved, p) {
        var j: nat :| j < |w'.runners| && Active(w'.runners[j], w.saved) && w'.runners[j].position == p;
        assert j != i && Active(w.runners[j], w.saved) && w.runners[j].position == p;
      }
    }
  }

  /** Where somebody holds the lease nothing has been accepted, and nobody else is active. */
  lemma HolderIsAlone(w: World, i: nat)
    requires Inv(w) && i < |w.runners| && Holds(w, i)
    ensures forall q :: q in w.saved && q.Checkpoint? ==> q.position != w.runners[i].position
    ensures forall j: nat ::
              j < |w.runners| && Active(w.runners[j], w.saved) && w.runners[j].position == w.runners[i].position
              ==> j == i
  {
    HolderHasLease(w, i);
    forall q | q in w.saved && q.Checkpoint?
      ensures q.position != w.runners[i].position
    {
      assert CheckpointOk(w, q);
    }
    forall j: nat | j < |w.runners| && Active(w.runners[j], w.saved) && w.runners[j].position == w.runners[i].position
      ensures j == i
    {
      assert Holds(w, j);
    }
  }

  lemma CountedCarries(w: World, w': World)
    requires Counted(w) && forall p :: Busy(w', p) <==> Busy(w, p)
    requires w'.starts == w.starts && w'.failures == w.failures && w'.crashes == w.crashes
    ensures Counted(w')
  {
  }

  /** A first save turns an active runner into a done task, and a late one touches neither;
      nor does anything else the server handles. */
  lemma ServingKeepsBusy(w: World, q: Request)
    requires Inv(w) && InTime(w, q)
    ensures forall p :: Busy(Serve(w, q), p) <==> Busy(w, p)
  {
    var w' := Serve(w, q);
    if w'.saved != w.saved {
      forall p
        ensures Busy(w', p) <==> Busy(w, p)
      {
        AcceptingKeepsBusy(w, q, p);
      }
    }
  }

  lemma AcceptingKeepsBusy(w: World, q: Request, p: int)
    requires Inv(w) && q.Checkpoint? && q !in w.saved && q in Serve(w, q).saved
    ensures Busy(Serve(w, q), p) <==> Busy(w, p)
  {
    assert w.late <= w.saved;
    hide Handle, Inv;
    if Busy(w, p) {
      AcceptedStaysBusy(w, q, p);
    }
    if Busy(Serve(w, q), p) {
      AcceptedWasBusy(w, q, p);
    }
  }

  lemma AcceptedStaysBusy(w: World, q: Request, p: int)
    requires w.late <= w.saved && q.Checkpoint? && q !in w.saved && q in Serve(w, q).saved && Busy(w, p)
    ensures Busy(Serve(w, q), p)
  {
    hide Handle;
    var w' := Serve(w, q);
    if DoneAt(w, p) {
      var q' :| q' in w.saved && q' !in w.late && q'.Checkpoint? && q'.position == p;
      assert q' in w'.saved && q' !in w'.late;
    } else {
      var j :| 0 <= j < |w.runners| && Active(w.runners[j], w.saved) && w.runners[j].position == p;
      if !Active(w.runners[j], w'.saved) {
        assert Sends(w.runners[j], q) && q in w'.saved && q !in w'.late;
      }
    }
  }

  lemma AcceptedWasBusy(w: World, q: Request, p: int)
    requires q.Checkpoint? && q !in w.saved && q in Serve(w, q).saved && Busy(Serve(w, q), p)
    ensures Busy(w, p)
  {
    hide Handle;
    var w' := Serve(w, q);
    if ActiveAt(w'.runners, w'.saved, p) {
      var j :| 0 <= j < |w.runners| && Active(w.runners[j], w'.saved) && w.runners[j].position == p;
      assert Active(w.runners[j], w.saved);
    } else {
      var q' :| q' in w'.saved && q' !in w'.late && q'.Checkpoint? && q'.position == p;
      if q' == q {
        var i: nat :| i < |w.runners| && Sends(w.runners[i], q);
        assert Active(w.runners[i], w.saved) && w.runners[i].position == p;
      } else {
        assert q' in w.saved && q' !in w.late;
      }
    }
  }

  /** A runner that saves stays as active as it was: it stops only once accepted. */
  lemma SavingMoveIsSteady(w: World, a: Action)
    requires Inv(w) && Possible(w, a) && Moves(a) && !a.Crash? && w.runners[a.i].phase.Saving?
    ensures Active(Moved(w, a), w.saved) <==> Active(w.runners[a.i], w.saved)
    ensures Active(Moved(w, a), w.saved) ==> Moved(w, a).position == w.runners[a.i].position
  {
    var r, e := w.runners[a.i], Met(w, a);
    StopsSavingWhenAccepted(w, a.i, e);
    if React(r, e).phase.Saving? {
      SavesWhatTaskReturned(r, e);
    }
    hide Inv, GoodMove, React;
  }

  /** A task that returns leaves its runner active: nothing can have been accepted there. */
  lemma EndTaskIsCounted(w: World, a: Action)
    requires Inv(w) && Possible(w, a) && a.EndTask?
    ensures Active(w.runners[a.i], w.saved) && (Active(Moved(w, a), w.saved) <==> a.what.TaskReturned?)
    ensures Moved(w, a).position == w.runners[a.i].position
  {
    HolderIsAlone(w, a.i);
    EndTaskIsGood(w, a.i, a.what);
    hide Inv, GoodMove;
  }

  /** What a step of a runner does to the count: it begins a task, it ends one without a
      result, or it leaves the runner as active as it was. */
  lemma MoveIsOneOf(w: World, a: Action)
    requires Inv(w) && Possible(w, a) && Moves(a)
    ensures var r, r' := w.runners[a.i], Moved(w, a);
            && (Active(r', w.saved) ==> r'.position == r.position)
            && if a.ReceiveAnswer? && w.answers[a.i].Granted? then
                 !Active(r, w.saved) && Active(r', w.saved) && Holds(w, a.i)
               else if (a.EndTask? && !a.what.TaskReturned?) || (a.Crash? && Active(r, w.saved)) then
                 Active(r, w.saved) && !Active(r', w.saved)
               else Active(r', w.saved) <==> Active(r, w.saved)
  {
    var r := w.runners[a.i];
    if r.phase.Saving? && !a.Crash? {
      SavingMoveIsSteady(w, a);
      assert a.ReceiveAnswer? ==> !w.answers[a.i].Granted?;
      hide Moved, Inv;
    } else if a.EndTask? {
      EndTaskIsCounted(w, a);
      hide Moved, Inv;
    } else {
      assert RunnerOk(w, a.i);
      hide Inv;
    }
  }

  lemma MovesKeepCounted(w: World, a: Action)
    requires Inv(w) && Counted(w) && Possible(w, a) && Moves(a) && OnTime(w, a)
    ensures Counted(Next(w, a))
  {
    var r' := Moved(w, a);
    MoveIsOneOf(w, a);
    BooksLeaveBusy(w, a);
    hide Handle, Inv, OnTime, Moved, Busy;
    if a.ReceiveAnswer? && w.answers[a.i].Granted? {
      GrantedIsNotBusy(w, a.i);
      StartingMove(w, a.i, r');
    } else if (a.EndTask? && !a.what.TaskReturned?) || (a.Crash? && Active(w.runners[a.i], w.saved)) {
      StoppingMove(w, a.i, r');
    } else {
      SteadyMove(w, a.i, r');
    }
  }

  /** A runner that holds a position but has not begun there finds it untouched. */
  lemma GrantedIsNotBusy(w: World, i: nat)
    requires Inv(w) && i < |w.runners| && Holds(w, i) && !Active(w.runners[i], w.saved)
    ensures !Busy(w, w.runners[i].position)
  {
    HolderIsAlone(w, i);
  }

  lemma BooksLeaveBusy(w: World, a: Action)
    requires Possible(w, a) && Moves(a)
    ensures forall p :: Busy(Next(w, a), p) <==> Busy(Move(w, a.i, Moved(w, a)), p)
  {
    NextMovesAndBooks(w, a);
    hide Next, Move, Moved;
  }

  lemma SameBusy(w: World, w': World)
    requires w'.runners == w.runners && w'.saved == w.saved && w'.late == w.late
    ensures forall p :: Busy(w', p) <==> Busy(w, p)
  {
  }

  lemma SpawningKeepsBusy(w: World, token: int)
    requires Possible(w, Spawn(token))
    ensures forall p :: Busy(Next(w, Spawn(token)), p) <==> Busy(w, p)
  {
    var w' := Next(w, Spawn(token));
    forall p
      ensures Busy(w', p) <==> Busy(w, p)
    {
      if ActiveAt(w.runners, w.saved, p) {
        var j :| 0 <= j < |w.runners| && Active(w.runners[j], w.saved) && w.runners[j].position == p;
        assert Active(w'.runners[j], w.saved) && w'.runners[j].position == p;
      }
    }
  }

  lemma NextKeepsCounted(w: World, a: Action)
    requires Inv(w) && Counted(w) && Possible(w, a) && OnTime(w, a)
    ensures Counted(Next(w, a))
  {
    if Moves(a) {
      MovesKeepCounted(w, a);
    } else {
      hide Handle, Inv, Counted, Busy, ReplyTo;
      if Handled(w, a).Some? {
        var q := Handled(w, a).value;
        ServingKeepsBusy(w, q);
        SameBusy(Serve(w, q), Next(w, a));
      } else if a.Spawn? {
        SpawningKeepsBusy(w, a.token);
      } else {
        SameBusy(w, Next(w, a));
      }
      CountedCarries(w, Next(w, a));
    }
  }

  lemma {:induction false} AlwaysCounted(ws: seq<World>, acts: seq<Action>, j: nat)
    requires IsTimelyHistory(ws, acts) && j <= |acts|
    ensures Counted(ws[j])
  {
    hide Next, OnTime, Inv, Counted, Possible, Init;
    if j > 0 {
      AlwaysCounted(ws, acts, j - 1);
      AlwaysInv(ws, acts, j - 1);
      var a := acts[j - 1];
      NextKeepsCounted(ws[j - 1], a);
    } else {
      NothingToCount(ws[0]);
    }
  }

  lemma NothingToCount(w: World)
    requires Init(w)
    ensures Counted(w)
  {
  }

  /** A task is started at a position once more than it failed or its runner crashed there,
      or just as often; exactly once more if and only if it is under way or done. */
  lemma StartsAreCounted(ws: seq<World>, acts: seq<Action>, j: nat, p: int)
    requires IsTimelyHistory(ws, acts) && j <= |acts|
    ensures ws[j].starts[p] <= 1 + ws[j].failures[p] + ws[j].crashes[p]
    ensures ws[j].starts[p] == 1 + ws[j].failures[p] + ws[j].crashes[p] <==> Busy(ws[j], p)
  {
    AlwaysCounted(ws, acts, j);
  }

  // ---------------------------------------------------------------- crash and retry

  ghost predicate Agrees(s: Workflow, r: State, p: int) {
    && 0 <= p < |r.results| && p in s.rows
    && s.rows[p].value == Some(r.results[p].1) && s.rows[p].key == r.results[p].0
  }

  /** Rows fill an unbroken range from position 0. A runner has returned one result for each
      position behind it, and each is the stored one unless the row there is a placeholder
      left by key generation: then, and only then, the result was never stored. */
  lemma ResultsAreTheStoredOnes(ws: seq<World>, acts: seq<Action>, j: nat, i: nat)
    requires IsTimelyHistory(ws, acts) && j <= |acts| && i < |ws[j].runners|
    ensures var s, r := ws[j].server, ws[j].runners[i];
            && (forall p :: p in s.rows ==> p >= 0 && forall q :: 0 <= q <= p ==> q in s.rows)
            && r.position == |r.results|
            && (forall p :: 0 <= p < r.position ==> p in s.rows && (Agrees(s, r, p) <==> s.rows[p].value.Some?))
  {
    AlwaysInv(ws, acts, j);
    var s, r := ws[j].server, ws[j].runners[i];
    assert RunnerOk(ws[j], i);
    forall p | 0 <= p < r.position
      ensures p in s.rows && (Agrees(s, r, p) <==> s.rows[p].value.Some?)
    {
      assert Matches(s, p, r.results[p].0, r.results[p].1);
    }
    forall p, q | p in s.rows && 0 <= q <= p
      ensures q in s.rows
    {
      NoGaps(s, p, q);
    }
  }

  lemma {:induction false} NoGaps(s: Workflow, p: int, q: int)
    requires RowsOk(s) && p in s.rows && 0 <= q <= p
    ensures q in s.rows
    decreases p
  {
    if q < p {
      NoGaps(s, p - 1, q);
    }
  }

  /** What one undisturbed runner does to produce a log. */
  function SoloActions(log: seq<(string, Bytes)>): seq<Action> {
    if log == [] then [Deliver(Start(None)), Spawn(1)]
    else
      var last := log[|log| - 1];
      SoloActions(log[..|log| - 1]) +
      [Execute(0, Task(last.0, None, None)), HandleCall(0), ReceiveAnswer(0)] +
      [EndTask(0, TaskReturned(last.1)), HandleCall(0), ReceiveAnswer(0)]
  }

  ghost function FreshWorld(now: int): World {
    World(now, NewWorkflow, [], {}, map[], multiset{}, map[], {}, {}, {}, {}, multiset{}, multiset{}, multiset{})
  }

  /** One runner, idle, has returned and stored the log, each task run once. */
  ghost predicate HasProduced(w: World, log: seq<(string, Bytes)>) {
    && |w.runners| == 1 && w.runners[0].phase.Idle? && w.answers == map[] && w.freed == {}
    && w.runners[0].token == 1 && w.runners[0].position == |log| && w.runners[0].results == log
    && w.server.token == Some(1) && w.server.leases == imap[]
    && (forall p :: p in w.server.rows <==> 0 <= p < |log|)
    && (forall p :: 0 <= p < |log| ==> Agrees(w.server, w.runners[0], p))
    && w.failures == multiset{} && w.crashes == multiset{}
    && (forall p :: w.starts[p] == if 0 <= p < |log| then 1 else 0)
  }

  lemma AgreesOneMore(s: Workflow, s': Workflow, r: State, key: string, value: Bytes)
    requires r.position == |r.results| && forall p :: 0 <= p < |r.results| ==> Agrees(s, r, p)
    requires |r.results| in s'.rows && s'.rows[|r.results|].key == key && s'.rows[|r.results|].value == Some(value)
    requires forall p :: p in s.rows && p != |r.results| ==> p in s'.rows && s'.rows[p] == s.rows[p]
    ensures forall p :: 0 <= p < |r.results| + 1 ==> Agrees(s', Advance(r, key, value), p)
  {
    forall p | 0 <= p < |r.results| + 1
      ensures Agrees(s', Advance(r, key, value), p)
    {
      assert p < |r.results| ==> Agrees(s, r, p);
    }
  }

  lemma ProducesOneMore(w: World, log: seq<(string, Bytes)>, key: string, value: Bytes, w1: World, w2: World)
    requires HasProduced(w, log) && IsExecuting(w, 0, Task(key, None, None), w1) && HasSaved(w1, 0, value, w2)
    ensures HasProduced(w2, log + [(key, value)])
  {
    assert w2.server.leases == imap[];
    assert w2.server.rows == w.server.rows[|log| := Row(key, Some(value), w1.now)];
    AgreesOneMore(w.server, w2.server, w.runners[0], key, value);
    assert w2.runners[0] == Advance(w.runners[0], key, value);
    assert w2.starts == w.starts + multiset{|log|};
    hide Agrees, IsExecuting, HasSaved, Upsert;
  }

  /** One more task: leased, run, saved. */
  lemma OneMoreTask(us: seq<World>, acts: seq<Action>, log: seq<(string, Bytes)>, key: string, value: Bytes)
    returns (vs: seq<World>)
    requires IsTimelyHistory(us, acts) && HasProduced(us[|acts|], log)
    ensures var acts' := acts + [Execute(0, Task(key, None, None)), HandleCall(0), ReceiveAnswer(0)]
                              + [EndTask(0, TaskReturned(value)), HandleCall(0), ReceiveAnswer(0)];
            IsTimelyHistory(vs, acts') && vs[0] == us[0] && HasProduced(vs[|acts'|], log + [(key, value)])
  {
    hide Next, Possible, OnTime, Init;
    var ws, more := Leases(us, acts, 0, Task(key, None, None));
    StaysTimely(us, acts, ws, more);
    var more';
    vs, more' := Saves(ws, acts + more, 0, value);
    StaysTimely(ws, acts + more, vs, more');
    ProducesOneMore(us[|acts|], log, key, value, ws[|acts| + 3], vs[|acts| + 6]);
  }

  /** The clean run: one runner, no crash, no failure, no wait, each task run once. */
  lemma {:induction false} CleanRun(now: int, log: seq<(string, Bytes)>) returns (vs: seq<World>)
    requires 0 <= now < I64_MAX
    ensures IsTimelyHistory(vs, SoloActions(log)) && vs[0] == FreshWorld(now)
    ensures HasProduced(vs[|vs| - 1], log)
    decreases |log|
  {
    if log == [] {
      var more;
      vs, more := Begins([FreshWorld(now)], []);
      StaysTimely([FreshWorld(now)], [], vs, more);
      assert [] + more == more;
    } else {
      hide Next, Possible, OnTime, Init, HasProduced, FreshWorld;
      var n := |log| - 1;
      vs := CleanRun(now, log[..n]);
      vs := OneMoreTask(vs, SoloActions(log[..n]), log[..n], log[n].0, log[n].1);
      assert log[..n] + [(log[n].0, log[n].1)] == log;
    }
  }

  // ---- the stored log

  lemma HandlingAddsOneRow(s: Workflow, now: int, q: Request, p: int)
    requires p in Handle(s, now, q).after.rows
    ensures p in s.rows || ((q.Checkpoint? || q.MakeKey?) && p == q.position)
  {
  }

  lemma {:induction false} RowsAreBounded(ws: seq<World>, acts: seq<Action>, j: nat) returns (n: nat)
    requires IsHistory(ws, acts) && j <= |acts|
    ensures forall p :: p in ws[j].server.rows ==> p < n
  {
    if j == 0 {
      n := 0;
    } else {
      n := RowsAreBounded(ws, acts, j - 1);
      var w, a := ws[j - 1], acts[j - 1];
      if Handled(w, a).Some? {
        var q := Handled(w, a).value;
        if (q.Checkpoint? || q.MakeKey?) && q.position >= n {
          n := q.position + 1;
        }
        forall p | p in ws[j].server.rows
          ensures p < n
        {
          HandlingAddsOneRow(w.server, w.now, q, p);
        }
      }
    }
  }

  ghost predicate StoredUpTo(s: Workflow, n: nat) {
    forall p :: 0 <= p < n ==> p in s.rows && s.rows[p].value.Some?
  }

  /** The stored keys and values of the first `n` positions. */
  ghost function LogOf(s: Workflow, n: nat): (log: seq<(string, Bytes)>)
    requires StoredUpTo(s, n)
    ensures |log| == n
  {
    if n == 0 then [] else LogOf(s, n - 1) + [(s.rows[n - 1].key, s.rows[n - 1].value.value)]
  }

  lemma {:induction false} LogAt(s: Workflow, n: nat, p: nat)
    requires StoredUpTo(s, n) && p < n
    ensures LogOf(s, n)[p] == (s.rows[p].key, s.rows[p].value.value)
  {
    if p < n - 1 {
      LogAt(s, n - 1, p);
    }
  }

  /** The first position without a stored value. */
  lemma FirstUnstored(s: Workflow, k: nat, bound: nat) returns (n: nat)
    requires StoredUpTo(s, k) && forall p :: p in s.rows ==> p < bound
    ensures StoredUpTo(s, n) && !(n in s.rows && s.rows[n].value.Some?)
    decreases bound - k
  {
    n := k;
    if k in s.rows && s.rows[k].value.Some? {
      n := FirstUnstored(s, k + 1, bound);
    }
  }

  /** The log is what is stored from position 0 up to the first position without a value. */
  ghost predicate IsStoredLog(s: Workflow, log: seq<(string, Bytes)>) {
    && (forall p :: 0 <= p < |log| ==>
          p in s.rows && s.rows[p].key == log[p].0 && s.rows[p].value == Some(log[p].1))
    && (|log| in s.rows ==> s.rows[|log|].value.None?)
  }

  /** The first results of the log, or all of them and more from behind a placeholder. */
  ghost predicate FollowsLog(s: Workflow, results: seq<(string, Bytes)>, log: seq<(string, Bytes)>) {
    if |results| <= |log| then results <= log else log <= results && |log| in s.rows
  }

  lemma StoredLog(ws: seq<World>, acts: seq<Action>, j: nat) returns (log: seq<(string, Bytes)>)
    requires IsHistory(ws, acts) && j <= |acts|
    ensures IsStoredLog(ws[j].server, log)
  {
    var s := ws[j].server;
    var bound := RowsAreBounded(ws, acts, j);
    var n := FirstUnstored(s, 0, bound);
    log := LogOf(s, n);
    forall p | 0 <= p < n
      ensures log[p] == (s.rows[p].key, s.rows[p].value.value)
    {
      LogAt(s, n, p);
    }
  }

  lemma ReturnedTheLog(ws: seq<World>, acts: seq<Action>, j: nat, i: nat, log: seq<(string, Bytes)>)
    requires IsTimelyHistory(ws, acts) && j <= |acts| && i < |ws[j].runners| && IsStoredLog(ws[j].server, log)
    ensures FollowsLog(ws[j].server, ws[j].runners[i].results, log)
  {
    ResultsAreTheStoredOnes(ws, acts, j, i);
    var results := ws[j].runners[i].results;
    forall p | 0 <= p < |results| && p < |log|
      ensures results[p] == log[p]
    {
      assert Agrees(ws[j].server, ws[j].runners[i], p);
    }
  }

  /** Without placeholders the stored log is all there is. */
  lemma LogIsWholeStore(s: Workflow, log: seq<(string, Bytes)>)
    requires RowsOk(s) && IsStoredLog(s, log)
    ensures (forall p :: p in s.rows ==> s.rows[p].value.Some?) <==> (forall p :: p in s.rows <==> 0 <= p < |log|)
  {
    forall p | p in s.rows && p >= |log|
      ensures |log| in s.rows
    {
      NoGaps(s, p, |log|);
    }
  }

  /** Crash and retry refines one clean run. However many runners started, crashed, failed,
      retried and overlapped: there is one log, the stored one, and one undisturbed run of
      one runner that returns and stores exactly that log; and every runner has returned the
      log's first results. A runner has returned more than the log holds only if key
      generation left a placeholder behind it; without placeholders the log is all that is
      stored. */
  lemma FaultyRunRefinesCleanRun(ws: seq<World>, acts: seq<Action>, j: nat)
    returns (log: seq<(string, Bytes)>, vs: seq<World>)
    requires IsTimelyHistory(ws, acts) && j <= |acts|
    ensures IsStoredLog(ws[j].server, log)
    ensures (forall p :: p in ws[j].server.rows ==> ws[j].server.rows[p].value.Some?)
       <==> (forall p :: p in ws[j].server.rows <==> 0 <= p < |log|)
    ensures forall i :: 0 <= i < |ws[j].runners| ==> FollowsLog(ws[j].server, ws[j].runners[i].results, log)
    ensures IsTimelyHistory(vs, SoloActions(log)) && vs[0] == FreshWorld(ws[0].now)
    ensures HasProduced(vs[|vs| - 1], log)
  {
    hide Next, OnTime, Possible, Inv, HasProduced, FollowsLog, IsStoredLog, RowsOk;
    log := StoredLog(ws, acts, j);
    vs := CleanRun(ws[0].now, log);
    RowsHaveNoGaps(ws, acts, j);
    LogIsWholeStore(ws[j].server, log);
    forall i | 0 <= i < |ws[j].runners|
      ensures FollowsLog(ws[j].server, ws[j].runners[i].results, log)
    {
      ReturnedTheLog(ws, acts, j, i, log);
    }
  }

  lemma RowsHaveNoGaps(ws: seq<World>, acts: seq<Action>, j: nat)
    requires IsTimelyHistory(ws, acts) && j <= |acts|
    ensures RowsOk(ws[j].server)
  {
    AlwaysInv(ws, acts, j);
  }
}
