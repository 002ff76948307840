/** In any history of runners and server, timely or not, the server's part is a run in the
    sense of `History`, with a clock in the sense of `GrantBound`. What those modules prove
    with no assumption on the clients therefore holds under every behaviour of the runners. */
module ServerSide {
  import opened Wrappers
  import opened LeaseTime
  import opened Protocol
  import opened Runners
  import opened System
  import opened History
  import opened GrantBound

  lemma ServerMoves(w: World, a: Action)
    requires Possible(w, a)
    ensures Next(w, a).server ==
            if Handled(w, a).Some? then Handle(w.server, w.now, Handled(w, a).value).after else w.server
    ensures w.now <= Next(w, a).now && (w.now < I64_MAX ==> Next(w, a).now < I64_MAX)
  {
  }

  /** `cs` are the requests the server handled in the first `j` steps, handled at the steps
      `at`, and `ss` its states around them. */
  ghost predicate IsServerSide(ws: seq<World>, acts: seq<Action>, j: nat,
                               ss: seq<Workflow>, cs: seq<Handling>, at: seq<nat>)
    requires IsHistory(ws, acts) && j <= |acts|
  {
    && |at| == |cs| && |ss| == |cs| + 1
    && ss[0] == ws[0].server && ss[|cs|] == ws[j].server
    && (forall k :: 0 <= k < |cs| ==>
          && at[k] < j && ss[k] == ws[at[k]].server
          && Handled(ws[at[k]], acts[at[k]]) == Some(cs[k].request) && cs[k].now == ws[at[k]].now)
    && (forall k, l :: 0 <= k < l < |cs| ==> at[k] < at[l])
  }

  lemma QuietStep(ws: seq<World>, acts: seq<Action>, j: nat, ss: seq<Workflow>, cs: seq<Handling>, at: seq<nat>)
    requires IsHistory(ws, acts) && j < |acts| && IsServerSide(ws, acts, j, ss, cs, at)
    requires Handled(ws[j], acts[j]).None?
    ensures IsServerSide(ws, acts, j + 1, ss, cs, at)
  {
  }

  lemma BusyStep(ws: seq<World>, acts: seq<Action>, j: nat, ss: seq<Workflow>, cs: seq<Handling>, at: seq<nat>)
    returns (ss': seq<Workflow>, cs': seq<Handling>, at': seq<nat>)
    requires IsHistory(ws, acts) && j < |acts| && IsServerSide(ws, acts, j, ss, cs, at) && IsRun(ss, cs)
    requires Handled(ws[j], acts[j]).Some?
    ensures IsServerSide(ws, acts, j + 1, ss', cs', at') && IsRun(ss', cs')
  {
    ServerMoves(ws[j], acts[j]);
    assert |ws| == |acts| + 1 && ws[j + 1] == Next(ws[j], acts[j]);
    RunGrows(ss, cs, ws[j].now, Handled(ws[j], acts[j]).value);
    hide Handled, Next, Handle, Init, IsRun, IsHistory;
    cs' := cs + [Handling(ws[j].now, Handled(ws[j], acts[j]).value)];
    ss', at' := ss + [ws[j + 1].server], at + [j];
  }

  lemma {:induction false} ClockNeverGoesBack(ws: seq<World>, acts: seq<Action>, i: nat, j: nat)
    requires IsHistory(ws, acts) && i <= j <= |acts|
    ensures ws[i].now <= ws[j].now && 0 <= ws[j].now < I64_MAX
    decreases j
  {
    if i < j {
      ClockNeverGoesBack(ws, acts, i, j - 1);
      var a := acts[j - 1];
      ServerMoves(ws[j - 1], a);
    } else if j > 0 {
      ClockNeverGoesBack(ws, acts, i - 1, j - 1);
      var a := acts[j - 1];
      ServerMoves(ws[j - 1], a);
    }
  }

  lemma {:induction false} ServerSideIsRun(ws: seq<World>, acts: seq<Action>, j: nat)
    returns (ss: seq<Workflow>, cs: seq<Handling>, at: seq<nat>)
    requires IsHistory(ws, acts) && j <= |acts|
    ensures IsServerSide(ws, acts, j, ss, cs, at) && IsRun(ss, cs) && Clocked(cs)
  {
    hide Next, Handle, Handled, Init, Clocked;
    if j == 0 {
      ss, cs, at := [ws[0].server], [], [];
    } else {
      ss, cs, at := ServerSideIsRun(ws, acts, j - 1);
      var a := acts[j - 1];
      if Handled(ws[j - 1], a).None? {
        QuietStep(ws, acts, j - 1, ss, cs, at);
      } else {
        ss, cs, at := BusyStep(ws, acts, j - 1, ss, cs, at);
      }
    }
    ServerSideIsClocked(ws, acts, j, ss, cs, at);
  }

  lemma ServerSideIsClocked(ws: seq<World>, acts: seq<Action>, j: nat,
                            ss: seq<Workflow>, cs: seq<Handling>, at: seq<nat>)
    requires IsHistory(ws, acts) && j <= |acts| && IsServerSide(ws, acts, j, ss, cs, at)
    ensures Clocked(cs)
  {
    hide Handled, Next, IsHistory;
    forall k, l | 0 <= k <= l < |cs|
      ensures 0 <= cs[k].now <= cs[l].now < I64_MAX
    {
      ClockNeverGoesBack(ws, acts, at[k], at[l]);
      ClockNeverGoesBack(ws, acts, at[k], at[k]);
    }
  }

  /** Fencing in the joint system, whatever the timing: no runner's call is granted a lease
      once a newer token was issued in the same incarnation. */
  lemma GrantsGoToNewestToken(ws: seq<World>, acts: seq<Action>, i: nat, j: nat, name: Option<string>)
    requires IsHistory(ws, acts) && i < j < |acts| && acts[j].HandleCall?
    requires acts[i] == Deliver(Start(name))
    requires forall k :: i < k <= j ==> ws[k].server.token.Some?
    requires ws[j].runners[acts[j].i].token < ReplyTo(ws[i], Start(name)).token
    ensures !ReplyTo(ws[j], CallOf(ws[j].runners[acts[j].i])).Granted?
  {
    StoredTokenRises(ws, acts, i + 1, j);
    var _ := acts[i];
  }

  lemma {:induction false} StoredTokenRises(ws: seq<World>, acts: seq<Action>, i: nat, j: nat)
    requires IsHistory(ws, acts) && i <= j <= |acts|
    requires forall k :: i <= k <= j ==> ws[k].server.token.Some?
    ensures ws[i].server.token.value <= ws[j].server.token.value
    decreases j
  {
    hide Next, Init;
    if i < j {
      StoredTokenRises(ws, acts, i, j - 1);
      var a := acts[j - 1];
      TokenRises(ws[j - 1], a);
    }
  }

  lemma TokenRises(w: World, a: Action)
    requires Possible(w, a)
    ensures w.server.token.Some? && Next(w, a).server.token.Some? ==>
              w.server.token.value <= Next(w, a).server.token.value
  {
    ServerMoves(w, a);
    hide Next, Handled, Possible;
  }

  // ---------------------------------------------------------------- tokens of runners

  /** No cleanup deleted the token. */
  ghost predicate OneIncarnation(ws: seq<World>, j: nat)
    requires j < |ws|
  {
    forall k {:trigger ws[k]} :: 0 <= k < j && ws[k].server.token.Some? ==> ws[k + 1].server.token.Some?
  }

  lemma {:induction false} TokenStays(ws: seq<World>, j: nat, i: nat, k: nat)
    requires j < |ws| && OneIncarnation(ws, j) && i <= k <= j && ws[i].server.token.Some?
    ensures ws[k].server.token.Some?
    decreases k
  {
    if i < k {
      TokenStays(ws, j, i, k - 1);
      var _ := ws[k - 1];
    }
  }

  lemma {:induction false} AlwaysTokensOk(ws: seq<World>, acts: seq<Action>, j: nat)
    requires IsHistory(ws, acts) && j <= |acts| && OneIncarnation(ws, j)
    ensures TokensOk(ws[j].server, ws[j].runners, ws[j].issued)
  {
    if j > 0 {
      hide Next, Possible, TokensOk;
      AlwaysTokensOk(ws, acts, j - 1);
      var a, _ := acts[j - 1], ws[j - 1];
      NextKeepsTokens(ws[j - 1], a);
    }
  }

  /** Token discipline, whatever the timing: as long as no cleanup deletes the token, runners
      carry distinct tokens, and none beyond the stored one. */
  lemma RunnersCarryDistinctTokens(ws: seq<World>, acts: seq<Action>, j: nat, i: nat, k: nat)
    requires IsHistory(ws, acts) && j <= |acts| && OneIncarnation(ws, j)
    requires i < |ws[j].runners| && k < |ws[j].runners|
    ensures ws[j].server.token.Some? && ws[j].runners[k].token <= ws[j].server.token.value
    ensures ws[j].runners[i].token == ws[j].runners[k].token ==> i == k
  {
    AlwaysTokensOk(ws, acts, j);
    assert ws[j].runners[i].token !in ws[j].issued && ws[j].runners[k].token !in ws[j].issued;
  }

  /** A start is handled in this step. */
  predicate Starts(a: Action) {
    a.Deliver? && a.request.Start?
  }

  ghost predicate IsOut(w: World, token: int) {
    token in w.issued || exists i :: 0 <= i < |w.runners| && w.runners[i].token == token
  }

  lemma MovingLeavesTokens(w: World, a: Action, token: int)
    requires Possible(w, a) && Moves(a) && IsOut(Next(w, a), token)
    ensures IsOut(w, token)
  {
    var r, w' := Moved(w, a), Next(w, a);
    assert r.token == w.runners[a.i].token;
    NextMovesAndBooks(w, a);
    hide Moved, Next, Possible;
    if token !in w.issued {
      var i :| 0 <= i < |w'.runners| && w'.runners[i].token == token;
      assert w.runners[i].token == token;
    }
  }

  lemma TokensComeOutByStarts(w: World, a: Action, token: int)
    requires Possible(w, a) && IsOut(Next(w, a), token)
    ensures IsOut(w, token) || (Starts(a) && ReplyTo(w, a.request) == Started(token))
  {
    if Moves(a) {
      MovingLeavesTokens(w, a, token);
    } else if Handled(w, a).Some? {
      RequestsOfRunnersAreNoStarts(w, a);
      OnlyStartsChangeToken(w.server, w.now, Handled(w, a).value);
      hide Handle;
    } else {
      hide Handle;
    }
  }

  /** Every token a runner carries was the answer to a start. */
  lemma {:induction false} TokenWasIssued(ws: seq<World>, acts: seq<Action>, j: nat, token: int) returns (m: nat)
    requires IsHistory(ws, acts) && j <= |acts| && IsOut(ws[j], token)
    ensures m < j && Starts(acts[m]) && ReplyTo(ws[m], acts[m].request) == Started(token)
  {
    hide Next, Possible, ReplyTo;
    m := j - 1;
    var a := acts[m];
    TokensComeOutByStarts(ws[m], a, token);
    if IsOut(ws[m], token) {
      m := TokenWasIssued(ws, acts, m, token);
    }
  }

  lemma StartRaisesToken(w: World, a: Action)
    requires Possible(w, a)
    ensures Starts(a) ==> Next(w, a).server.token == Some(ReplyTo(w, a.request).token)
    ensures Starts(a) && w.server.token.Some? ==> Next(w, a).server.token.value == w.server.token.value + 1
    ensures !Starts(a) && Next(w, a).server.token.Some? ==> Next(w, a).server.token == w.server.token
  {
    ServerMoves(w, a);
    RequestsOfRunnersAreNoStarts(w, a);
    hide Next, Possible;
  }

  lemma RequestsOfRunnersAreNoStarts(w: World, a: Action)
    requires Possible(w, a)
    ensures Handled(w, a).Some? && Handled(w, a).value.Start? ==> Starts(a)
  {
  }

  /** Without a start the stored token stays as it is. */
  lemma {:induction false} TokenStandsStill(ws: seq<World>, acts: seq<Action>, i: nat, j: nat)
    requires IsHistory(ws, acts) && i <= j <= |acts| && forall k :: i <= k <= j ==> ws[k].server.token.Some?
    requires forall k :: i <= k < j ==> !Starts(acts[k])
    ensures ws[j].server.token == ws[i].server.token
    decreases j
  {
    hide Next, Possible, Init;
    if i < j {
      TokenStandsStill(ws, acts, i, j - 1);
      var a := acts[j - 1];
      StartRaisesToken(ws[j - 1], a);
    }
  }

  /** An accepted checkpoint, whatever the timing, tells its runner to abort exactly if a
      start was handled since the one (step `m`) that gave the runner its token. */
  lemma AbortTellsOfLaterStart(ws: seq<World>, acts: seq<Action>, j: nat, i: nat) returns (m: nat)
    requires IsHistory(ws, acts) && j < |acts| && OneIncarnation(ws, j)
    requires acts[j] == HandleCall(i) && ws[j].runners[i].phase.Saving?
    requires ReplyTo(ws[j], CallOf(ws[j].runners[i])).Acknowledged?
    ensures m < j && Starts(acts[m]) && ReplyTo(ws[m], acts[m].request) == Started(ws[j].runners[i].token)
    ensures ReplyTo(ws[j], CallOf(ws[j].runners[i])).abort <==> exists k :: m < k < j && Starts(acts[k])
  {
    var r := ws[j].runners[i];
    hide Next, Possible, Init;
    m := TokenWasIssued(ws, acts, j, r.token);
    TokenTellsOfStarts(ws, acts, m, j);
    AbortTellsOfToken(ws[j], CallOf(r));
  }

  lemma AbortTellsOfToken(w: World, q: Request)
    requires q.Checkpoint? && ReplyTo(w, q).Acknowledged?
    ensures w.server.token.Some? && (ReplyTo(w, q).abort <==> w.server.token.value > q.token)
  {
  }

  lemma TokenThroughout(ws: seq<World>, acts: seq<Action>, m: nat, j: nat)
    requires IsHistory(ws, acts) && m < j <= |acts| && OneIncarnation(ws, j) && Starts(acts[m])
    ensures forall k :: m < k <= j ==> ws[k].server.token.Some?
    ensures ws[m + 1].server.token == Some(ReplyTo(ws[m], acts[m].request).token)
  {
    var a := acts[m];
    StartRaisesToken(ws[m], a);
    hide Next, Possible, ReplyTo, OneIncarnation;
    forall k | m < k <= j
      ensures ws[k].server.token.Some?
    {
      TokenStays(ws, j, m + 1, k);
    }
  }

  /** The stored token is beyond the one a start issued exactly if there was a later start. */
  lemma TokenTellsOfStarts(ws: seq<World>, acts: seq<Action>, m: nat, j: nat)
    requires IsHistory(ws, acts) && m < j <= |acts| && OneIncarnation(ws, j) && Starts(acts[m])
    ensures ws[j].server.token.Some?
    ensures ws[j].server.token.value > ReplyTo(ws[m], acts[m].request).token
            <==> exists k :: m < k < j && Starts(acts[k])
  {
    hide Next, Possible, ReplyTo, IsHistory, OneIncarnation;
    TokenThroughout(ws, acts, m, j);
    if k :| m < k < j && Starts(acts[k]) {
      LaterStartRaisesToken(ws, acts, m + 1, k, j);
    } else {
      TokenStandsStill(ws, acts, m + 1, j);
    }
  }

  lemma LaterStartRaisesToken(ws: seq<World>, acts: seq<Action>, i: nat, k: nat, j: nat)
    requires IsHistory(ws, acts) && i <= k < j <= |acts| && Starts(acts[k])
    requires forall l :: i <= l <= j ==> ws[l].server.token.Some?
    ensures ws[j].server.token.value > ws[i].server.token.value
  {
    hide Next, Possible, Init;
    StoredTokenRises(ws, acts, i, k);
    var a := acts[k];
    StartRaisesToken(ws[k], a);
    StoredTokenRises(ws, acts, k + 1, j);
  }
}
