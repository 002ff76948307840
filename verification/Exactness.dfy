/** What becomes of exclusion and of results when a step is late, exactly: for each way of
    being late, the condition under which harm is done. */
module Exactness {
  import opened Wrappers
  import opened LeaseTime
  import opened Protocol
  import opened Runners
  import opened System
  import opened Timely

  // ---------------------------------------------------------------- the joint invariant

  lemma DisturbingBreaksLease(w: World, q: Request, k: nat)
    requires Inv(w) && (q.Release? || q.Checkpoint?) && k < |w.runners| && Holds(w, k)
    requires w.runners[k].position == q.position && !w.runners[k].phase.Releasing? && !Sends(w.runners[k], q)
    ensures Holds(Serve(w, q), k) && w.runners[k].position !in Serve(w, q).server.leases
  {
  }

  lemma DisturbedWhoeverAsked(w: World, a: Action, k: nat)
    requires Possible(w, a) && Handled(w, a).Some? && k < |w.runners| && Holds(w, k)
    requires var q := Handled(w, a).value;
             && (q.Release? || q.Checkpoint?) && !Sends(w.runners[k], q)
             && Holds(Serve(w, q), k) && w.runners[k].position !in Serve(w, q).server.leases
    ensures k < |Next(w, a).runners| && !RunnerOk(Next(w, a), k)
  {
    hide Handle, ReplyTo;
    assert Holds(Next(w, a), k) && !Leased(Next(w, a), k, w.runners[k]);
  }

  lemma LateHandlingBreaksInv(w: World, a: Action)
    requires Inv(w) && Possible(w, a) && Handled(w, a).Some? && !a.CleanUp? && !OnTime(w, a)
    ensures !Inv(Next(w, a))
  {
    var q := Handled(w, a).value;
    assert q.Release? || q.Checkpoint?;
    var k: nat :| k < |w.runners| && Holds(w, k) && w.runners[k].position == q.position
                  && !w.runners[k].phase.Releasing? && !Sends(w.runners[k], q);
    DisturbingBreaksLease(w, q, k);
    hide Handle, Inv, InTime, OnTime;
    DisturbedWhoeverAsked(w, a, k);
    BrokenRunnerBreaksInv(Next(w, a), k);
  }

  lemma BrokenRunnerBreaksInv(w: World, k: nat)
    requires k < |w.runners| && !RunnerOk(w, k)
    ensures !Inv(w)
  {
  }

  /** The timing assumption is necessary for the joint invariant: a step other than a cleanup
      keeps it if and only if the step is on time. What a late step does to exclusion and to
      results is said below. */
  lemma OnTimeIsExact(w: World, a: Action)
    requires Inv(w) && Possible(w, a) && !a.CleanUp?
    ensures Inv(Next(w, a)) <==> OnTime(w, a)
  {
    if OnTime(w, a) {
      NextKeepsInv(w, a);
    } else if Handled(w, a).Some? {
      LateHandlingBreaksInv(w, a);
    } else if a.Execute? {
      assert !RunnerOk(Next(w, a), a.i);
      BrokenRunnerBreaksInv(Next(w, a), a.i);
    } else {
      var k: nat :| k < |w.runners| && Holds(w, k) && k in w.held && !(w.now + a.ms < EffectiveEnd(w.held[k]));
      assert Holds(Next(w, a), k) && !RunnerOk(Next(w, a), k);
      BrokenRunnerBreaksInv(Next(w, a), k);
    }
  }

  // ---------------------------------------------------------------- exclusion

  /** Let runner `j` ask, with the stored token, for a position that has
      no row. If a release of that position is handled just before, `j` is granted the lease;
      and then two runners hold the position if and only if the release was out of time. */
  lemma ReleaseThenGrant(w: World, j: nat)
    requires Inv(w) && Possible(w, HandleCall(j)) && w.runners[j].phase.Leasing?
    requires w.server.token == Some(w.runners[j].token) && w.runners[j].position !in w.server.rows
    ensures var q := Release(w.runners[j].position);
            var w2 := Answered(Serve(w, q), j);
            && w2.answers[j] == Granted
            && (Exclusive(w2) <==> InTime(w, q))
  {
    var p := w.runners[j].position;
    var q := Release(p);
    var w1 := Serve(w, q);
    var w2 := Answered(w1, j);
    assert w2.answers[j] == Granted;
    if InTime(w, q) {
      ServingKeepsInv(w, q);
      AnsweredKeepsInv(w1, j);
    } else {
      var k: nat :| k < |w.runners| && Holds(w, k) && w.runners[k].position == p && !w.runners[k].phase.Releasing?;
      DisturbingBreaksLease(w, q, k);
      hide Handle;
      assert Holds(w2, j) && Holds(w2, k) && k != j;
      assert w2.runners[k].position == w2.runners[j].position;
    }
  }

  /** The cache holds the lease of every holder, run out or not. */
  ghost predicate LeasesCached(w: World) {
    forall k: nat :: k < |w.runners| && Holds(w, k) ==>
      k in w.held && w.runners[k].position in w.server.leases && w.server.leases[w.runners[k].position] == w.held[k]
  }

  lemma HoldersAreCached(w: World)
    requires Inv(w)
    ensures LeasesCached(w) && Exclusive(w)
  {
    forall k: nat | k < |w.runners| && Holds(w, k)
      ensures k in w.held && w.runners[k].position in w.server.leases
      ensures w.server.leases[w.runners[k].position] == w.held[k]
    {
      HolderHasLease(w, k);
    }
  }

  /** Some time passes, the cache drops what it may at position `p`, and then the server
      handles the call of runner `j`. */
  ghost function AfterAWhile(w: World, ms: nat, p: int, j: nat): World
    requires Possible(w, HandleCall(j))
  {
    Answered(Serve(w.(now := w.now + ms), Evict(p)), j)
  }

  lemma OthersHoldOn(w: World, ms: nat, p: int, j: nat)
    requires Possible(w, HandleCall(j)) && w.runners[j].phase.Leasing?
    ensures var w' := AfterAWhile(w, ms, p, j);
            && j in w'.answers && w'.runners == w.runners
            && forall k: nat :: k < |w.runners| && k != j ==> (Holds(w', k) <==> Holds(w, k))
  {
    hide Handle, ReplyTo;
  }

  /** A position without a row is granted to the stored token exactly if the lease there,
      if any, has effectively ended. */
  lemma GrantedOnceEnded(w: World, j: nat, ms: nat)
    requires 0 <= w.now && w.now + ms < I64_MAX && Possible(w, HandleCall(j)) && w.runners[j].phase.Leasing?
    requires w.server.token == Some(w.runners[j].token) && w.runners[j].position !in w.server.rows
    ensures var p := w.runners[j].position;
            AfterAWhile(w, ms, p, j).answers[j] == Granted
            <==> p !in w.server.leases || w.now + ms >= EffectiveEnd(w.server.leases[p])
  {
    var p := w.runners[j].position;
    if p in w.server.leases {
      SaturationIsExact(w.server.leases[p], w.now + ms);
    }
  }

  /** A task that outlasts its lease. Some time passes while runners may hold position `p`,
      which has no row, and then runner `j` asks for it with the stored token. It is granted
      the position exactly if the lease there has effectively ended; and then two runners
      hold `p` if and only if a holder's lease did. No time at all need pass if a lease ends
      as it is granted, having no positive timeout. */
  lemma TimeThenGrant(w: World, j: nat, ms: nat)
    requires 0 <= w.now && w.now + ms < I64_MAX && Exclusive(w) && LeasesCached(w)
    requires Possible(w, HandleCall(j)) && w.runners[j].phase.Leasing?
    requires w.server.token == Some(w.runners[j].token) && w.runners[j].position !in w.server.rows
    ensures var p := w.runners[j].position;
            var w' := AfterAWhile(w, ms, p, j);
            && j in w'.answers
            && (w'.answers[j] == Granted
                <==> p !in w.server.leases || w.now + ms >= EffectiveEnd(w.server.leases[p]))
            && (Exclusive(w') <==>
                  forall k: nat :: k < |w.runners| && Holds(w, k) && w.runners[k].position == p ==>
                    w.now + ms < EffectiveEnd(w.held[k]))
  {
    var p := w.runners[j].position;
    var w' := AfterAWhile(w, ms, p, j);
    GrantedOnceEnded(w, j, ms);
    OthersHoldOn(w, ms, p, j);
    assert Holds(w', j) <==> w'.answers[j] == Granted;
    assert !Holds(w, j);
    hide Handle, Answered, AfterAWhile, Serve, Possible, EffectiveEnd, Holds;
    if k: nat :| k < |w.runners| && Holds(w, k) && w.runners[k].position == p && w.now + ms >= EffectiveEnd(w.held[k]) {
      assert Holds(w', k) && Holds(w', j) && k != j;
    }
  }

  // ---------------------------------------------------------------- results

  /** What is accepted of a checkpoint at a position some other runner holds. */
  lemma ForeignCheckpoint(w: World, k: nat, q: Request)
    requires Inv(w) && k < |w.runners| && Holds(w, k) && q.Checkpoint? && q in w.sent && q !in w.saved
    requires q.position == w.runners[k].position && !Sends(w.runners[k], q)
    ensures var s, s' := w.server, Serve(w, q).server;
            && s.token.Some? && s'.token == s.token && s'.leases == s.leases - {q.position}
            && ReplyTo(w, q) == Acknowledged(s.token.value > q.token)
            && s'.rows == Upsert(s.rows, q.position, Row(q.key, Some(q.value), w.now))
            && (q.position in s.rows ==> s.rows[q.position].value.None?)
  {
    HolderHasLease(w, k);
    ProtectedUntilEffectiveEnd(w.held[k], w.now);
    assert CheckpointOk(w, q);
  }

  /** A late checkpoint. A checkpoint of somebody else, never accepted before, is handled
      while runner `k` waits for its own at the same position. Runner `k` is acknowledged all
      the same, and learns nothing; and the row agrees with what it goes on to return if and
      only if the other result is the same, or a placeholder had swallowed both. */
  lemma CheckpointThenSave(w: World, k: nat, q: Request)
    requires Inv(w) && k < |w.runners| && w.runners[k].phase.Saving? && CallOf(w.runners[k]) !in w.saved
    requires q.Checkpoint? && q in w.sent && q !in w.saved
    requires q.position == w.runners[k].position && q != CallOf(w.runners[k])
    ensures var own := CallOf(w.runners[k]);
            var w1 := Serve(w, q);
            var w2 := Serve(w1, own);
            && w.server.token.Some? && ReplyTo(w1, own) == Acknowledged(w.server.token.value > own.token)
            && own.position in w2.server.rows
            && (Matches(w2.server, own.position, own.key, own.value)
                <==> own.position in w.server.rows || (q.key == own.key && q.value == own.value))
  {
    ForeignCheckpoint(w, k, q);
  }

  /** The same for a runner whose task is still running then, and returns afterwards. */
  lemma CheckpointThenReturn(w: World, k: nat, q: Request, value: Bytes)
    requires Inv(w) && k < |w.runners| && w.runners[k].phase.Executing?
    requires q.Checkpoint? && q in w.sent && q !in w.saved && q.position == w.runners[k].position
    ensures var ends := EndTask(k, TaskReturned(value));
            var w1 := Serve(w, q);
            && Possible(w1, ends)
            && var w2 := Next(w1, ends);
               var r := w.runners[k];
               var own := Checkpoint(r.token, r.position, value, r.phase.task.key);
               && Sends(w2.runners[k], own)
               && w.server.token.Some? && ReplyTo(w2, own) == Acknowledged(w.server.token.value > r.token)
               && (Matches(Serve(w2, own).server, r.position, own.key, value)
                   <==> r.position in w.server.rows || (q.key == own.key && q.value == value))
  {
    ForeignCheckpoint(w, k, q);
    HolderHasLease(w, k);
  }

  // ---------------------------------------------------------------- cleanup

  /** A cleanup while a runner waits for its checkpoint: the checkpoint is still accepted if
      and only if the cleanup spared the workflow. Otherwise it is refused for want of a
      token, its result is stored nowhere, and the lease is gone though the runner holds it. */
  lemma CleanupThenSave(w: World, k: nat, leader: bool)
    requires Inv(w) && k < |w.runners| && w.runners[k].phase.Saving? && CallOf(w.runners[k]) !in w.saved
    ensures var own := CallOf(w.runners[k]);
            var w1 := Serve(w, Cleanup(leader));
            var w2 := Serve(w1, own);
            if InTime(w, Cleanup(leader)) then
              ReplyTo(w1, own).Acknowledged?
            else
              && ReplyTo(w1, own) == Refused(FencingTokenNotFound)
              && w2.server.rows == imap[] && own.position !in w2.server.leases && Holds(w2, k)
  {
    if InTime(w, Cleanup(leader)) {
      FirstSave(w, k);
    }
  }
}
