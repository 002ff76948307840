/** Where the guarantees end: concrete histories that show what the assumptions are for. */
module Limits {
  import opened Wrappers
  import opened LeaseTime
  import opened Protocol
  import opened Runners
  import opened System
  import opened Timely
  import opened Segments
  import opened Guarantees

  const WORK := Task("k", None, None)

  /** Every step is on time but the `d`-th. */
  ghost predicate TimelyBut(ws: seq<World>, acts: seq<Action>, d: nat)
    requires IsHistory(ws, acts)
  {
    d < |acts| && forall k {:trigger acts[k]} :: 0 <= k < |acts| ==> (OnTime(ws[k], acts[k]) <==> k != d)
  }

  lemma OneStepLate(us: seq<World>, before: seq<Action>, a: Action, vs: seq<World>, ws: seq<World>, more: seq<Action>)
    requires IsTimelyHistory(us, before) && Possible(us[|before|], a) && !OnTime(us[|before|], a)
    requires vs == us + [Next(us[|before|], a)] && Extends(vs, before + [a], ws, more)
    ensures IsHistory(ws, before + [a] + more) && TimelyBut(ws, before + [a] + more, |before|)
  {
    hide OnTime, Possible, Next, Init;
    var all := before + [a] + more;
    forall k {:trigger all[k]} | 0 <= k < |all|
      ensures OnTime(ws[k], all[k]) <==> k != |before|
    {
      if k < |before| {
        assert all[k] == before[k] && ws[k] == us[k];
      } else if k > |before| {
        assert all[k] == more[k - |before| - 1];
      } else {
        assert ws[k] == us[k];
      }
    }
  }

  lemma FirstRunner() returns (us: seq<World>, acts: seq<Action>)
    ensures acts == [Deliver(Start(None)), Spawn(1)] && IsTimelyHistory(us, acts)
    ensures var w := us[|acts|];
            && w.runners == [State(1, 0, Idle(None), [])] && w.now == 0
            && w.server.token == Some(1) && w.server.rows == imap[] && w.server.leases == imap[] && w.server.meta.Some?
            && w.answers == map[] && w.freed == {} && w.saved == {}
  {
    us, acts := Begins([FreshWorld(0)], []);
    StaysTimely([FreshWorld(0)], [], us, acts);
    assert [] + acts == acts;
    BegunHasMeta(us, acts);
  }

  lemma BegunHasMeta(us: seq<World>, acts: seq<Action>)
    requires IsHistory(us, acts) && acts == [Deliver(Start(None)), Spawn(1)]
    ensures us[2].server.meta.Some?
  {
    assert us[1] == Next(us[0], acts[0]) && us[2] == Next(us[1], acts[1]);
  }

  /** The first runner begins and is granted position 0. */
  lemma FirstGrant() returns (us: seq<World>, acts: seq<Action>)
    ensures acts == [Deliver(Start(None)), Spawn(1)] + [Execute(0, WORK), HandleCall(0), ReceiveAnswer(0)]
    ensures IsTimelyHistory(us, acts)
    ensures var w := us[|acts|];
            && w.runners == [State(1, 0, Executing(WORK, 30000), [])] && w.now == 0
            && w.server.token == Some(1) && w.server.rows == imap[]
            && w.server.leases == imap[0 := LeaseEntry(0, 30000)]
            && w.answers == map[] && w.freed == {} && w.saved == {}
            && 0 in w.held && w.held[0] == LeaseEntry(0, 30000)
  {
    var u1, m1 := FirstRunner();
    var m2;
    us, m2 := Leases(u1, m1, 0, WORK);
    hide IsTimelyHistory;
    StaysTimely(u1, m1, us, m2);
    acts := m1 + m2;
    assert us[5].server.leases == imap[0 := LeaseEntry(0, 30000)];
  }

  /** Time passes while the only runner holds nothing. */
  lemma TickWorld(w: World, r: State, ms: nat) returns (w': World)
    requires w.runners == [r] && (r.phase.Idle? || r.phase.Crashed?) && w.now == 0 && ms <= 30000
    ensures Step(w, Tick(ms), w') && w' == w.(now := ms)
  {
    w' := Next(w, Tick(ms));
  }

  /** Runner 0's task fails, and its release gets no answer. */
  lemma AbandonWorlds(w: World) returns (w1: World, w2: World)
    requires w.runners == [State(1, 0, Executing(WORK, 30000), [])] && w.answers == map[] && w.freed == {}
    ensures Step(w, EndTask(0, TaskRejected), w1) && Step(w1, LoseCall(0), w2)
    ensures w2.runners == [State(1, 0, Idle(Some(Threw(CallFailed))), [])] && w2.now == w.now
    ensures w2.server == w.server && w2.answers == map[] && w2.freed == {} && Release(0) in w2.sent
  {
    w1 := Next(w, EndTask(0, TaskRejected));
    assert w1.runners == [State(1, 0, Releasing(WORK, 30000), [])] && Release(0) in w1.sent && w1.answers == map[];
    w2 := Next(w1, LoseCall(0));
  }

  /** Runner 0, whose release is still on its way, is granted position 0 once more. */
  lemma RetryAfterLostRelease() returns (us: seq<World>, acts: seq<Action>)
    ensures acts ==
            [Deliver(Start(None)), Spawn(1)] + [Execute(0, WORK), HandleCall(0), ReceiveAnswer(0)] +
            [EndTask(0, TaskRejected), LoseCall(0), Tick(30000)] + [Execute(0, WORK), HandleCall(0), ReceiveAnswer(0)]
    ensures IsTimelyHistory(us, acts)
    ensures var w := us[|acts|];
            && w.runners == [State(1, 0, Executing(WORK, 60000), [])] && Release(0) in w.sent
            && w.server.token == Some(1) && w.server.rows == imap[]
            && w.server.leases == imap[0 := LeaseEntry(30000, 30000)]
            && w.answers == map[] && w.freed == {} && w.now == 30000
  {
    var u1, a1 := FirstGrant();
    var w1, w2 := AbandonWorlds(u1[|a1|]);
    var w3 := TickWorld(w2, State(1, 0, Idle(Some(Threw(CallFailed))), []), 30000);
    var m2 := [EndTask(0, TaskRejected), LoseCall(0), Tick(30000)];
    hide IsTimelyHistory, Step, Extends, Next, Possible, OnTime, Init, Upsert;
    var u2 := ExtendByThree(u1, a1, m2[0], w1, m2[1], w2, m2[2], w3);
    StaysTimely(u1, a1, u2, m2);
    var m3;
    us, m3 := Leases(u2, a1 + m2, 0, WORK);
    StaysTimely(u2, a1 + m2, us, m3);
    acts := a1 + m2 + m3;
    assert us[|acts|].server.leases == imap[0 := LeaseEntry(30000, 30000)];
  }

  /** The delayed release takes the lease of the retry. */
  lemma LateReleaseWorld(w: World) returns (w': World)
    requires w.runners == [State(1, 0, Executing(WORK, 60000), [])] && Release(0) in w.sent && w.freed == {}
    ensures Possible(w, Deliver(Release(0))) && !OnTime(w, Deliver(Release(0))) && w' == Next(w, Deliver(Release(0)))
    ensures w'.server == w.server.(leases := w.server.leases - {0}) && w'.runners == w.runners
    ensures w'.answers == w.answers && w'.freed == {} && w'.now == w.now
  {
    w' := Next(w, Deliver(Release(0)));
    assert WaitingToRelease(w, 0) == {};
    assert Holds(w, 0);
  }

  /** A second runner is granted the unleased position 0 beside the first. */
  lemma SecondGrant(us: seq<World>, acts: seq<Action>) returns (vs: seq<World>, more: seq<Action>)
    requires IsHistory(us, acts)
    requires var w := us[|acts|];
             && |w.runners| == 1 && w.server.token == Some(1) && w.server.rows == imap[]
             && w.answers == map[] && w.freed == {}
             && (0 in w.server.leases ==> TimeLeft(w.server.leases[0], w.now) <= 0)
    ensures more == [Deliver(Start(None)), Spawn(2)] + [Execute(1, WORK), HandleCall(1), ReceiveAnswer(1)]
    ensures Extends(us, acts, vs, more)
    ensures var w, w' := us[|acts|], vs[|acts| + 5];
            && w'.runners == [w.runners[0], State(2, 0, Executing(WORK, w.now + 30000), [])] && w'.now == w.now
            && w'.server.token == Some(2) && w'.server.rows == imap[]
            && w'.server.leases == w.server.leases[0 := LeaseEntry(w.now, 30000)]
            && w'.answers == map[] && w'.freed == {} && w.sent <= w'.sent && w'.saved == w.saved
  {
    var us1, m1 := Begins(us, acts);
    var m2;
    vs, m2 := Leases(us1, acts + m1, 1, WORK);
    more := m1 + m2;
    assert acts + m1 + m2 == acts + more;
    JoinExtensions(us, acts, us1, m1, vs, m2);
    hide Extends, IsHistory;
    assert |acts + m1| + 3 == |acts| + 5;
  }

  /** A single release, handled once but late, breaks exclusion: runner 0 fails, its release
      is delayed beyond the call's loss, runner 0 retries, and when the release arrives it
      takes the retry's lease, so that runner 1 executes the same position beside it. Every
      other step is on time. */
  lemma LateReleaseBreaksExclusion() returns (ws: seq<World>, acts: seq<Action>)
    ensures acts ==
            [Deliver(Start(None)), Spawn(1)] + [Execute(0, WORK), HandleCall(0), ReceiveAnswer(0)] +
            [EndTask(0, TaskRejected), LoseCall(0), Tick(30000)] + [Execute(0, WORK), HandleCall(0), ReceiveAnswer(0)] +
            [Deliver(Release(0))] +
            ([Deliver(Start(None)), Spawn(2)] + [Execute(1, WORK), HandleCall(1), ReceiveAnswer(1)])
    ensures IsHistory(ws, acts) && TimelyBut(ws, acts, 11)
    ensures ws[|acts|].runners == [State(1, 0, Executing(WORK, 60000), []), State(2, 0, Executing(WORK, 60000), [])]
  {
    var us, before := RetryAfterLostRelease();
    var late := Deliver(Release(0));
    var w := LateReleaseWorld(us[|before|]);
    var vs := Extend(us, before, late);
    assert vs[|before| + 1] == w && w.server.leases == imap[];
    hide IsTimelyHistory, OnTime, Possible, Extends, TimelyBut;
    var more;
    ws, more := SecondGrant(vs, before + [late]);
    OneStepLate(us, before, late, vs, ws, more);
    acts := before + [late] + more;
  }

  // ---------------------------------------------------------------- a late checkpoint

  /** Runner 0's task returns, the checkpoint is on its way, and the runner crashes. */
  lemma CrashWorlds(w: World, value: Bytes) returns (w1: World, w2: World)
    requires w.runners == [State(1, 0, Executing(WORK, 30000), [])] && w.now == 0 && w.answers == map[] && w.freed == {}
    ensures Step(w, EndTask(0, TaskReturned(value)), w1) && Step(w1, Crash(0), w2)
    ensures w2.runners == [State(1, 0, Crashed, [])] && w2.now == w.now && w2.saved == w.saved
    ensures w2.server == w.server && w2.answers == map[] && w2.freed == {} && Checkpoint(1, 0, value, "k") in w2.sent
  {
    w1 := Next(w, EndTask(0, TaskReturned(value)));
    assert w1.runners == [State(1, 0, Saving(WORK, value, 30000), [])] && Checkpoint(1, 0, value, "k") in w1.sent;
    w2 := Next(w1, Crash(0));
  }

  lemma CrashBeforeSave(value: Bytes) returns (us: seq<World>, acts: seq<Action>)
    ensures acts ==
            [Deliver(Start(None)), Spawn(1)] + [Execute(0, WORK), HandleCall(0), ReceiveAnswer(0)] +
            [EndTask(0, TaskReturned(value)), Crash(0), Tick(30000)] +
            ([Deliver(Start(None)), Spawn(2)] + [Execute(1, WORK), HandleCall(1), ReceiveAnswer(1)])
    ensures IsTimelyHistory(us, acts)
    ensures var w := us[|acts|];
            && w.runners == [State(1, 0, Crashed, []), State(2, 0, Executing(WORK, 60000), [])] && w.now == 30000
            && w.server.token == Some(2) && w.server.rows == imap[]
            && w.server.leases == imap[0 := LeaseEntry(30000, 30000)]
            && w.answers == map[] && w.freed == {} && Checkpoint(1, 0, value, "k") in w.sent && w.saved == {}
  {
    var u1, a1 := FirstGrant();
    var w1, w2 := CrashWorlds(u1[|a1|], value);
    var w3 := TickWorld(w2, State(1, 0, Crashed, []), 30000);
    var m2 := [EndTask(0, TaskReturned(value)), Crash(0), Tick(30000)];
    hide IsTimelyHistory, Step, Extends, Next, Possible, OnTime, Init, Upsert;
    var u2 := ExtendByThree(u1, a1, m2[0], w1, m2[1], w2, m2[2], w3);
    StaysTimely(u1, a1, u2, m2);
    var m3;
    us, m3 := SecondGrant(u2, a1 + m2);
    StaysTimely(u2, a1 + m2, us, m3);
    acts := a1 + m2 + m3;
    assert us[|acts|].server.leases == imap[0 := LeaseEntry(30000, 30000)];
  }

  /** The crashed runner's checkpoint is stored, and takes the second runner's lease. */
  lemma LateCheckpointWorld(w: World, value: Bytes) returns (w': World)
    requires w.runners == [State(1, 0, Crashed, []), State(2, 0, Executing(WORK, 60000), [])] && w.now == 30000
    requires w.server.token == Some(2) && w.server.rows == imap[]
    requires w.server.leases == imap[0 := LeaseEntry(30000, 30000)]
    requires w.freed == {} && Checkpoint(1, 0, value, "k") in w.sent && w.saved == {}
    ensures var a := Deliver(Checkpoint(1, 0, value, "k")); Possible(w, a) && !OnTime(w, a) && w' == Next(w, a)
    ensures w'.server == w.server.(leases := imap[], rows := imap[0 := Row("k", Some(value), 30000)])
    ensures w'.runners == w.runners && w'.answers == w.answers && w'.freed == {} && w'.now == w.now
  {
    w' := Next(w, Deliver(Checkpoint(1, 0, value, "k")));
    SaturationIsExact(LeaseEntry(30000, 30000), 30000);
    assert WaitingToRelease(w, 0) == {};
    assert Holds(w, 1);
    assert w'.server.leases == imap[];
  }

  /** A single checkpoint that arrives late, after its sender crashed and while another
      runner holds the position, splits the results: the late value is stored, and the other
      runner is acknowledged and returns its own. Every other step is on time. */
  lemma LateCheckpointSplitsResults(value: Bytes, other: Bytes) returns (ws: seq<World>, acts: seq<Action>)
    ensures acts ==
            [Deliver(Start(None)), Spawn(1)] + [Execute(0, WORK), HandleCall(0), ReceiveAnswer(0)] +
            [EndTask(0, TaskReturned(value)), Crash(0), Tick(30000)] +
            ([Deliver(Start(None)), Spawn(2)] + [Execute(1, WORK), HandleCall(1), ReceiveAnswer(1)]) +
            [Deliver(Checkpoint(1, 0, value, "k"))] +
            [EndTask(1, TaskReturned(other)), HandleCall(1), ReceiveAnswer(1)]
    ensures IsHistory(ws, acts) && TimelyBut(ws, acts, 13)
    ensures var w := ws[|acts|];
            && w.runners == [State(1, 0, Crashed, []), State(2, 1, Idle(Some(Returned(other))), [("k", other)])]
            && 0 in w.server.rows && w.server.rows[0].value == Some(value)
  {
    var us, before := CrashBeforeSave(value);
    var late := Deliver(Checkpoint(1, 0, value, "k"));
    var w := LateCheckpointWorld(us[|before|], value);
    var vs := Extend(us, before, late);
    assert vs[|before| + 1] == w;
    hide IsTimelyHistory, OnTime, Possible, Extends, TimelyBut;
    var more;
    ws, more := Saves(vs, before + [late], 1, other);
    OneStepLate(us, before, late, vs, ws, more);
    acts := before + [late] + more;
    assert HasSaved(w, 1, other, ws[|acts|]) && [] + [("k", other)] == [("k", other)];
  }

  // ---------------------------------------------------------------- a task that outlasts its lease

  lemma LateTickWorld(w: World) returns (w': World)
    requires w.runners == [State(1, 0, Executing(WORK, 30000), [])] && w.now == 0
    requires 0 in w.held && w.held[0] == LeaseEntry(0, 30000)
    ensures Possible(w, Tick(30000)) && !OnTime(w, Tick(30000)) && w' == Next(w, Tick(30000))
    ensures w' == w.(now := 30000)
  {
    w' := Next(w, Tick(30000));
    assert Holds(w, 0);
  }

  /** A task that outlasts its lease breaks exclusion: when the lease of runner 0 has run out,
      runner 1 executes the same position beside it. Every other step is on time. */
  lemma LongTaskBreaksExclusion() returns (ws: seq<World>, acts: seq<Action>)
    ensures acts ==
            [Deliver(Start(None)), Spawn(1)] + [Execute(0, WORK), HandleCall(0), ReceiveAnswer(0)] +
            [Tick(30000)] +
            ([Deliver(Start(None)), Spawn(2)] + [Execute(1, WORK), HandleCall(1), ReceiveAnswer(1)])
    ensures IsHistory(ws, acts) && TimelyBut(ws, acts, 5)
    ensures ws[|acts|].runners == [State(1, 0, Executing(WORK, 30000), []), State(2, 0, Executing(WORK, 60000), [])]
  {
    var us, before := FirstGrant();
    var late := Tick(30000);
    var w := LateTickWorld(us[|before|]);
    var vs := Extend(us, before, late);
    assert vs[|before| + 1] == w;
    hide IsTimelyHistory, OnTime, Possible, Extends, TimelyBut;
    var more;
    ws, more := SecondGrant(vs, before + [late]);
    OneStepLate(us, before, late, vs, ws, more);
    acts := before + [late] + more;
  }

  // ---------------------------------------------------------------- cleanup

  /** Runner 0 completes the workflow, to be kept for no time at all. */
  lemma CompletionWorlds(w: World) returns (w1: World, w2: World)
    requires w.runners == [State(1, 0, Idle(None), [])] && w.now == 0
    requires w.server.token == Some(1) && w.server.meta.Some?
    ensures Step(w, SendFinish(0, 0), w1) && Step(w1, Deliver(Finish(1, 0)), w2)
    ensures w2.server == w.server.(meta := w2.server.meta) && w2.server.meta.Some? && Expired(w2.server.meta.value, 1)
    ensures w2 == w.(server := w2.server, sent := w2.sent)
  {
    w1 := Next(w, SendFinish(0, 0));
    w2 := Next(w1, Deliver(Finish(1, 0)));
    WrapIsExact(0, 0);
  }

  lemma Completed() returns (us: seq<World>, acts: seq<Action>)
    ensures acts == [Deliver(Start(None)), Spawn(1)] + [SendFinish(0, 0), Deliver(Finish(1, 0)), Tick(1)]
    ensures IsTimelyHistory(us, acts)
    ensures var w := us[|acts|];
            && w.runners == [State(1, 0, Idle(None), [])] && w.now == 1
            && w.server.token == Some(1) && w.server.rows == imap[] && w.server.leases == imap[]
            && w.server.meta.Some? && Expired(w.server.meta.value, 1)
            && w.answers == map[] && w.freed == {} && w.saved == {}
  {
    var u1, m1 := FirstRunner();
    var w1, w2 := CompletionWorlds(u1[|m1|]);
    var w3 := TickWorld(w2, State(1, 0, Idle(None), []), 1);
    var m2 := [SendFinish(0, 0), Deliver(Finish(1, 0)), Tick(1)];
    hide IsTimelyHistory, Step, Extends, Expired, Next, Possible, OnTime, Init;
    us := ExtendByThree(u1, m1, m2[0], w1, m2[1], w2, m2[2], w3);
    StaysTimely(u1, m1, us, m2);
    acts := m1 + m2;
  }

  /** The completed workflow goes on: its runner's task has returned and waits to be saved. */
  lemma ReturnAfterCompletion(value: Bytes) returns (us: seq<World>, acts: seq<Action>)
    ensures acts ==
            [Deliver(Start(None)), Spawn(1)] + [SendFinish(0, 0), Deliver(Finish(1, 0)), Tick(1)] +
            [Execute(0, WORK), HandleCall(0), ReceiveAnswer(0)] + [EndTask(0, TaskReturned(value))]
    ensures IsTimelyHistory(us, acts)
    ensures var w := us[|acts|];
            && w.runners == [State(1, 0, Saving(WORK, value, 30001), [])] && w.now == 1
            && w.server.token == Some(1) && w.server.meta.Some? && Expired(w.server.meta.value, 1)
            && w.answers == map[] && w.freed == {} && w.saved == {}
  {
    var u1, a1 := Completed();
    assert IsHistory(u1, a1);
    hide IsTimelyHistory, Expired;
    var u2, m2 := Leases(u1, a1, 0, WORK);
    StaysTimely(u1, a1, u2, m2);
    var w := ReturningWorld(u2[|a1| + 3], 0, value);
    us := ExtendByStep(u2, a1 + m2, EndTask(0, TaskReturned(value)), w);
    acts := a1 + m2 + [EndTask(0, TaskReturned(value))];
  }

  lemma ExtendByStep(us: seq<World>, acts: seq<Action>, a: Action, w: World) returns (vs: seq<World>)
    requires IsTimelyHistory(us, acts) && Step(us[|acts|], a, w)
    ensures IsTimelyHistory(vs, acts + [a]) && vs == us + [w]
  {
    vs := Extend(us, acts, a);
    StaysTimely(us, acts, vs, [a]);
  }

  lemma LateCleanupWorlds(w: World, value: Bytes) returns (w1: World, w2: World)
    requires w.runners == [State(1, 0, Saving(WORK, value, 30001), [])] && w.now == 1
    requires w.server.token == Some(1) && w.server.meta.Some? && Expired(w.server.meta.value, 1)
    requires w.answers == map[] && w.freed == {} && w.saved == {}
    ensures Possible(w, CleanUp(true)) && !OnTime(w, CleanUp(true)) && w1 == Next(w, CleanUp(true))
    ensures Step(w1, HandleCall(0), w2)
    ensures w2.runners == w.runners && w2.answers == map[0 := Refused(FencingTokenNotFound)]
    ensures w2.server.rows == imap[] && w2.server.token == None
  {
    w1 := Next(w, CleanUp(true));
    w2 := Next(w1, HandleCall(0));
  }

  /** A cleanup while a runner is at work strands it: the workflow was completed and taken up
      again, the cleanup deletes it, and the runner's checkpoint is refused for want of a
      token. Every other step is on time. */
  lemma CleanupStrandsRunner(value: Bytes) returns (ws: seq<World>, acts: seq<Action>)
    ensures acts ==
            [Deliver(Start(None)), Spawn(1)] + [SendFinish(0, 0), Deliver(Finish(1, 0)), Tick(1)] +
            [Execute(0, WORK), HandleCall(0), ReceiveAnswer(0)] + [EndTask(0, TaskReturned(value))] +
            [CleanUp(true)] + [HandleCall(0)]
    ensures IsHistory(ws, acts) && TimelyBut(ws, acts, 9)
    ensures var w := ws[|acts|];
            && w.runners == [State(1, 0, Saving(WORK, value, 30001), [])]
            && w.answers == map[0 := Refused(FencingTokenNotFound)] && w.server.rows == imap[]
  {
    var us, before := ReturnAfterCompletion(value);
    var w1, w2 := LateCleanupWorlds(us[|before|], value);
    var vs := Extend(us, before, CleanUp(true));
    hide IsTimelyHistory, TimelyBut;
    ws := Extend(vs, before + [CleanUp(true)], HandleCall(0));
    OneStepLate(us, before, CleanUp(true), vs, ws, [HandleCall(0)]);
    acts := before + [CleanUp(true)] + [HandleCall(0)];
  }

  // ---------------------------------------------------------------- key generation

  /** A key request of runner 0, which is idle, is on its way. */
  lemma KeyRequestWorld(w: World) returns (w': World)
    requires w.runners == [State(1, 0, Idle(None), [])]
    ensures Step(w, SendKeyRequest(0, "g"), w') && w' == w.(sent := w.sent + {MakeKey(1, 0, "g")})
  {
    w' := Next(w, SendKeyRequest(0, "g"));
  }

  lemma PlaceholderWorld(w: World) returns (w': World)
    requires MakeKey(1, 0, "g") in w.sent && w.server.token == Some(1) && w.server.rows == imap[]
    ensures Step(w, Deliver(MakeKey(1, 0, "g")), w')
    ensures w' == w.(server := w.server.(rows := imap[0 := Row("g", None, w.now)]))
  {
    w' := Next(w, Deliver(MakeKey(1, 0, "g")));
    assert w'.server.rows == imap[0 := Row("g", None, w.now)];
  }

  /** Placeholders do lose results: a key request that lands while a task runs takes the
      row, the checkpoint is acknowledged without storing anything, and the runner goes on
      with a result nobody will ever see again. Nothing here is late. */
  lemma KeyGenerationLosesResult(value: Bytes) returns (ws: seq<World>, acts: seq<Action>)
    ensures IsTimelyHistory(ws, acts)
    ensures var w := ws[|acts|];
            && w.runners == [State(1, 1, Idle(Some(Returned(value))), [("k", value)])]
            && 0 in w.server.rows && w.server.rows[0].value.None?
  {
    var us, before := GrantBehindKeyRequest();
    var w := PlaceholderWorld(us[|before|]);
    var key := Deliver(MakeKey(1, 0, "g"));
    var vs := Extend(us, before, key);
    assert vs[|before| + 1] == w;
    StaysTimely(us, before, vs, [key]);
    hide IsTimelyHistory, OnTime, Possible, Extends;
    var more;
    ws, more := Saves(vs, before + [key], 0, value);
    StaysTimely(vs, before + [key], ws, more);
    acts := before + [key] + more;
    assert HasSaved(w, 0, value, ws[|acts|]) && [] + [("k", value)] == [("k", value)];
  }

  lemma GrantBehindKeyRequest() returns (us: seq<World>, acts: seq<Action>)
    ensures IsTimelyHistory(us, acts)
    ensures var w := us[|acts|];
            && w.runners == [State(1, 0, Executing(WORK, 30000), [])] && w.now == 0
            && w.server.token == Some(1) && w.server.rows == imap[]
            && w.answers == map[] && w.freed == {} && MakeKey(1, 0, "g") in w.sent
  {
    var u1, m1 := FirstRunner();
    var ask := SendKeyRequest(0, "g");
    var w := KeyRequestWorld(u1[|m1|]);
    var u2 := Extend(u1, m1, ask);
    assert u2[|m1| + 1] == w;
    StaysTimely(u1, m1, u2, [ask]);
    hide IsTimelyHistory, OnTime, Possible, Extends;
    var m3;
    us, m3 := Leases(u2, m1 + [ask], 0, WORK);
    StaysTimely(u2, m1 + [ask], us, m3);
    acts := m1 + [ask] + m3;
  }
}
