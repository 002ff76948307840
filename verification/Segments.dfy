/** Short stretches of history, to build concrete histories from. Each extends a history by
    a few steps that are on time. */
module Segments {
  import opened Wrappers
  import opened LeaseTime
  import opened Protocol
  import opened Runners
  import opened System
  import opened Timely

  ghost predicate Step(w: World, a: Action, w': World) {
    Possible(w, a) && OnTime(w, a) && w' == Next(w, a)
  }

  /** `vs` is `us` and goes on, by the steps `more`, all of them on time. */
  ghost predicate Extends(us: seq<World>, acts: seq<Action>, vs: seq<World>, more: seq<Action>) {
    && IsHistory(us, acts) && IsHistory(vs, acts + more) && us <= vs
    && forall k {:trigger more[k]} :: 0 <= k < |more| ==>
         Possible(vs[|acts| + k], more[k]) && OnTime(vs[|acts| + k], more[k])
  }

  lemma StaysTimely(us: seq<World>, acts: seq<Action>, vs: seq<World>, more: seq<Action>)
    requires IsTimelyHistory(us, acts) && Extends(us, acts, vs, more)
    ensures IsTimelyHistory(vs, acts + more)
  {
    hide OnTime, Possible, Next, Init;
    var all := acts + more;
    forall i {:trigger all[i]} | 0 <= i < |all|
      ensures Possible(vs[i], all[i]) && OnTime(vs[i], all[i])
    {
      if i < |acts| {
        assert all[i] == acts[i] && us[i] == vs[i];
      } else {
        assert all[i] == more[i - |acts|];
      }
    }
  }

  lemma Extend(us: seq<World>, acts: seq<Action>, a: Action) returns (vs: seq<World>)
    requires IsHistory(us, acts) && Possible(us[|acts|], a)
    ensures IsHistory(vs, acts + [a]) && vs == us + [Next(us[|acts|], a)]
    ensures OnTime(us[|acts|], a) ==> Extends(us, acts, vs, [a])
  {
    vs := us + [Next(us[|acts|], a)];
    hide Next, Init, OnTime, Possible;
    var more := acts + [a];
    forall i {:trigger more[i]} | 0 <= i < |more|
      ensures Possible(vs[i], more[i]) && vs[i + 1] == Next(vs[i], more[i])
    {
      if i < |acts| {
        assert more[i] == acts[i];
      }
    }
  }

  lemma ExtendFurther(us: seq<World>, acts: seq<Action>, vs: seq<World>, more: seq<Action>, a: Action, w: World)
    returns (vs': seq<World>)
    requires Extends(us, acts, vs, more) && Step(vs[|acts| + |more|], a, w)
    ensures Extends(us, acts, vs', more + [a]) && vs' == vs + [w]
  {
    hide Next, Init, OnTime, Possible;
    vs' := Extend(vs, acts + more, a);
    assert acts + more + [a] == acts + (more + [a]);
    var all := more + [a];
    forall k {:trigger all[k]} | 0 <= k < |all|
      ensures Possible(vs'[|acts| + k], all[k]) && OnTime(vs'[|acts| + k], all[k])
    {
      if k < |more| {
        assert all[k] == more[k];
      }
    }
  }

  lemma ExtendByTwo(us: seq<World>, acts: seq<Action>, a: Action, w1: World, b: Action, w2: World)
    returns (vs: seq<World>)
    requires IsHistory(us, acts) && Step(us[|acts|], a, w1) && Step(w1, b, w2)
    ensures Extends(us, acts, vs, [a, b]) && vs[|acts| + 2] == w2
  {
    vs := Extend(us, acts, a);
    hide Next, Init, OnTime, Possible, IsHistory, Step, Extends;
    vs := ExtendFurther(us, acts, vs, [a], b, w2);
    assert [a] + [b] == [a, b];
  }

  lemma ExtendByThree(us: seq<World>, acts: seq<Action>, a: Action, w1: World, b: Action, w2: World,
                      c: Action, w3: World)
    returns (vs: seq<World>)
    requires IsHistory(us, acts) && Step(us[|acts|], a, w1) && Step(w1, b, w2) && Step(w2, c, w3)
    ensures Extends(us, acts, vs, [a, b, c]) && vs[|acts| + 3] == w3
  {
    hide Next, Init, OnTime, Possible, Step;
    vs := ExtendByTwo(us, acts, a, w1, b, w2);
    vs := ExtendFurther(us, acts, vs, [a, b], c, w3);
    assert [a, b] + [c] == [a, b, c];
  }

  lemma JoinExtensions(us: seq<World>, acts: seq<Action>, vs: seq<World>, more: seq<Action>,
                       ws: seq<World>, more': seq<Action>)
    requires Extends(us, acts, vs, more) && Extends(vs, acts + more, ws, more')
    ensures Extends(us, acts, ws, more + more')
  {
    hide OnTime, Possible, Next, Init;
    assert acts + more + more' == acts + (more + more');
    var all := more + more';
    forall k {:trigger all[k]} | 0 <= k < |all|
      ensures Possible(ws[|acts| + k], all[k]) && OnTime(ws[|acts| + k], all[k])
    {
      if k < |more| {
        assert all[k] == more[k] && ws[|acts| + k] == vs[|acts| + k];
      } else {
        assert all[k] == more'[k - |more|];
      }
    }
  }

  // ---------------------------------------------------------------- beginning

  function NextToken(w: World): int {
    if w.server.token.Some? then w.server.token.value + 1 else 1
  }

  /** `w'` is `w` with one more runner, the newest. */
  ghost predicate HasBegun(w: World, w': World) {
    && w'.runners == w.runners + [State(NextToken(w), 0, Idle(None), [])]
    && w'.server == w.server.(token := Some(NextToken(w)), meta := w'.server.meta)
    && w' == w.(runners := w'.runners, server := w'.server)
  }

  lemma BeginningWorlds(w: World) returns (w1: World, w2: World)
    ensures Step(w, Deliver(Start(None)), w1) && Step(w1, Spawn(NextToken(w)), w2) && HasBegun(w, w2)
  {
    w1 := StartedWorld(w);
    hide Handle;
    w2 := Next(w1, Spawn(NextToken(w)));
    assert w2.issued == w.issued;
  }

  lemma StartedWorld(w: World) returns (w1: World)
    ensures Step(w, Deliver(Start(None)), w1)
    ensures w1.server == w.server.(token := Some(NextToken(w)), meta := w1.server.meta)
    ensures w1 == w.(server := w1.server, issued := w.issued + multiset{NextToken(w)})
  {
    w1 := Next(w, Deliver(Start(None)));
  }

  /** A start is handled, and its sender is told the token. */
  lemma Begins(us: seq<World>, acts: seq<Action>) returns (vs: seq<World>, more: seq<Action>)
    requires IsHistory(us, acts)
    ensures more == [Deliver(Start(None)), Spawn(NextToken(us[|acts|]))]
    ensures Extends(us, acts, vs, more) && HasBegun(us[|acts|], vs[|acts| + 2])
  {
    var w1, w2 := BeginningWorlds(us[|acts|]);
    more := [Deliver(Start(None)), Spawn(NextToken(us[|acts|]))];
    hide Step, HasBegun, IsHistory;
    vs := ExtendByTwo(us, acts, more[0], w1, more[1], w2);
  }

  // ---------------------------------------------------------------- leasing

  /** Runner `i` may be granted its position. */
  ghost predicate CanBeGranted(w: World, i: nat, task: Task) {
    && i < |w.runners| && w.runners[i].phase.Idle? && i !in w.answers && i !in w.freed && Timeout(task) > 0
    && w.server.token == Some(w.runners[i].token) && w.runners[i].position !in w.server.rows
    && (w.runners[i].position in w.server.leases ==> TimeLeft(w.server.leases[w.runners[i].position], w.now) <= 0)
  }

  ghost predicate IsExecuting(w: World, i: nat, task: Task, w': World)
    requires i < |w.runners|
  {
    var entry := LeaseEntry(w.now, Timeout(task));
    && w'.runners == w.runners[i := w.runners[i].(phase := Executing(task, w.now + Timeout(task)))]
    && w'.server == w.server.(leases := w.server.leases[w.runners[i].position := entry])
    && w.sent <= w'.sent
    && w' == w.(runners := w'.runners, server := w'.server, held := w.held[i := entry], sent := w'.sent,
                starts := w.starts + multiset{w.runners[i].position})
  }

  lemma GrantingWorlds(w: World, i: nat, task: Task) returns (w1: World, w2: World, w3: World)
    requires CanBeGranted(w, i, task)
    ensures Step(w, Execute(i, task), w1) && Step(w1, HandleCall(i), w2) && Step(w2, ReceiveAnswer(i), w3)
    ensures IsExecuting(w, i, task, w3)
  {
    w1 := Next(w, Execute(i, task));
    w2 := Next(w1, HandleCall(i));
    assert w2.answers[i] == Granted;
    w3 := Next(w2, ReceiveAnswer(i));
    assert w3.answers == w.answers && w3.freed == w.freed;
  }

  /** An idle runner with the stored token asks for a position neither written nor leased. */
  lemma Leases(us: seq<World>, acts: seq<Action>, i: nat, task: Task) returns (vs: seq<World>, more: seq<Action>)
    requires IsHistory(us, acts) && CanBeGranted(us[|acts|], i, task)
    ensures more == [Execute(i, task), HandleCall(i), ReceiveAnswer(i)]
    ensures Extends(us, acts, vs, more) && IsExecuting(us[|acts|], i, task, vs[|acts| + 3])
  {
    var w1, w2, w3 := GrantingWorlds(us[|acts|], i, task);
    more := [Execute(i, task), HandleCall(i), ReceiveAnswer(i)];
    hide Step, CanBeGranted, IsExecuting, IsHistory;
    vs := ExtendByThree(us, acts, more[0], w1, more[1], w2, more[2], w3);
  }

  // ---------------------------------------------------------------- saving

  /** Runner `i` executes a task under the stored token, alone and before its deadline. */
  ghost predicate CanSave(w: World, i: nat) {
    && i < |w.runners| && w.runners[i].phase.Executing? && i !in w.answers && i !in w.freed
    && w.server.token == Some(w.runners[i].token) && w.now < w.runners[i].phase.deadline
    && forall j: nat :: j < |w.runners| && j != i ==> !Holds(w, j) && !w.runners[j].phase.Releasing?
  }

  ghost predicate HasSaved(w: World, i: nat, value: Bytes, w': World)
    requires i < |w.runners| && w.runners[i].phase.Executing?
  {
    var r := w.runners[i];
    && w'.runners == w.runners[i := Advance(r, r.phase.task.key, value)]
    && w'.server == w.server.(leases := w.server.leases - {r.position},
                              rows := Upsert(w.server.rows, r.position, Row(r.phase.task.key, Some(value), w.now)))
    && w' == w.(runners := w'.runners, server := w'.server, sent := w'.sent,
                saved := w'.saved, late := w'.late, produced := w'.produced)
  }

  /** `w'` is `w` with runner `i` waiting for its checkpoint. */
  ghost predicate IsSaving(w: World, i: nat, value: Bytes, w': World)
    requires i < |w.runners| && w.runners[i].phase.Executing?
  {
    var phase := w.runners[i].phase;
    && w'.runners == w.runners[i := w.runners[i].(phase := Saving(phase.task, value, phase.deadline))]
    && w' == w.(runners := w'.runners, sent := w'.sent, produced := w'.produced)
  }

  lemma ReturningWorld(w: World, i: nat, value: Bytes) returns (w1: World)
    requires CanSave(w, i)
    ensures Step(w, EndTask(i, TaskReturned(value)), w1) && IsSaving(w, i, value, w1)
  {
    w1 := Next(w, EndTask(i, TaskReturned(value)));
    assert w1.answers == w.answers && w1.freed == w.freed;
  }

  lemma SavingDisturbsNobody(w: World, i: nat, value: Bytes, w1: World)
    requires CanSave(w, i) && IsSaving(w, i, value, w1)
    ensures InTime(w1, CallOf(w1.runners[i])) && WaitingToRelease(w1, w.runners[i].position) == {}
  {
    hide Handle;
    forall j: nat | j < |w.runners| && j != i
      ensures !Holds(w1, j)
    {
      assert !Holds(w, j);
    }
  }

  lemma AcknowledgedWorlds(w: World, i: nat, value: Bytes, w1: World) returns (w2: World, w3: World)
    requires CanSave(w, i) && IsSaving(w, i, value, w1)
    ensures Step(w1, HandleCall(i), w2) && Step(w2, ReceiveAnswer(i), w3) && HasSaved(w, i, value, w3)
  {
    SavingDisturbsNobody(w, i, value, w1);
    hide CanSave, InTime, Holds;
    assert i !in w1.answers && i !in w1.freed && w1.server.token == Some(w.runners[i].token);
    w2 := Next(w1, HandleCall(i));
    assert w2.answers[i] == Acknowledged(false);
    w3 := Next(w2, ReceiveAnswer(i));
    assert w3.answers == w.answers && w3.freed == w.freed;
  }

  /** A task returns, its result is saved, and the runner learns of that. */
  lemma Saves(us: seq<World>, acts: seq<Action>, i: nat, value: Bytes) returns (vs: seq<World>, more: seq<Action>)
    requires IsHistory(us, acts) && CanSave(us[|acts|], i)
    ensures more == [EndTask(i, TaskReturned(value)), HandleCall(i), ReceiveAnswer(i)]
    ensures Extends(us, acts, vs, more) && HasSaved(us[|acts|], i, value, vs[|acts| + 3])
  {
    var w1 := ReturningWorld(us[|acts|], i, value);
    var w2, w3 := AcknowledgedWorlds(us[|acts|], i, value, w1);
    more := [EndTask(i, TaskReturned(value)), HandleCall(i), ReceiveAnswer(i)];
    hide Step, CanSave, HasSaved, IsSaving, IsHistory;
    vs := ExtendByThree(us, acts, more[0], w1, more[1], w2, more[2], w3);
  }

  // ---------------------------------------------------------------- replaying

  /** `w'` is `w` with runner `i` having returned a result, and nothing stored or started. */
  ghost predicate HasReplayed(w: World, i: nat, key: string, value: Bytes, w': World)
    requires i < |w.runners|
  {
    && w'.runners == w.runners[i := Returning(w.runners[i], key, value)]
    && w' == w.(runners := w'.runners, sent := w'.sent, freed := w'.freed)
  }

  ghost predicate CanReplay(w: World, i: nat, key: string, value: Bytes) {
    && i < |w.runners| && w.runners[i].phase.Idle? && i !in w.answers
    && Stores(w.server, w.runners[i].position, key, value)
  }

  lemma ReplayingWorlds(w: World, i: nat, key: string, value: Bytes) returns (w1: World, w2: World, w3: World)
    requires CanReplay(w, i, key, value)
    ensures Step(w, Execute(i, Task(key, None, None)), w1) && Step(w1, HandleCall(i), w2)
    ensures Step(w2, ReceiveAnswer(i), w3)
    ensures HasReplayed(w, i, key, value, w3)
  {
    w1 := Next(w, Execute(i, Task(key, None, None)));
    w2 := Next(w1, HandleCall(i));
    assert w2.answers[i] == Stored(value) && w2.server == w.server;
    w3 := Next(w2, ReceiveAnswer(i));
    assert w3.answers == w.answers;
  }

  /** An idle runner executes a task whose result is stored under the task's key. */
  lemma Replays(us: seq<World>, acts: seq<Action>, i: nat, key: string, value: Bytes)
    returns (vs: seq<World>, more: seq<Action>)
    requires IsHistory(us, acts) && CanReplay(us[|acts|], i, key, value)
    ensures more == [Execute(i, Task(key, None, None)), HandleCall(i), ReceiveAnswer(i)]
    ensures Extends(us, acts, vs, more) && HasReplayed(us[|acts|], i, key, value, vs[|acts| + 3])
  {
    var w1, w2, w3 := ReplayingWorlds(us[|acts|], i, key, value);
    more := [Execute(i, Task(key, None, None)), HandleCall(i), ReceiveAnswer(i)];
    hide Step, CanReplay, HasReplayed, IsHistory;
    vs := ExtendByThree(us, acts, more[0], w1, more[1], w2, more[2], w3);
  }
}
