/** Whole runs of the server on one workflow, with no assumption on the clients: any
    requests, in any order, repeated or delayed at will, with any tokens and clock
    readings. `ws[i]` is the state before the i-th request and `ws[i + 1]` the one after. */
module History {
  import opened Wrappers
  import opened LeaseTime
  import opened Protocol

  datatype Handling = Handling(now: int, request: Request)

  ghost predicate IsRun(ws: seq<Workflow>, cs: seq<Handling>) {
    && |ws| == |cs| + 1
    && forall i {:trigger cs[i]} :: 0 <= i < |cs| ==> ws[i + 1] == Handle(ws[i], cs[i].now, cs[i].request).after
  }

  ghost function ReplyAt(ws: seq<Workflow>, cs: seq<Handling>, i: nat): Reply
    requires IsRun(ws, cs) && i < |cs|
  {
    Handle(ws[i], cs[i].now, cs[i].request).reply
  }

  lemma RunGrows(ss: seq<Workflow>, cs: seq<Handling>, now: int, q: Request)
    requires IsRun(ss, cs)
    ensures IsRun(ss + [Handle(ss[|cs|], now, q).after], cs + [Handling(now, q)])
  {
  }

  /** No cleanup took the workflow away between the two states. Numbering of tokens
      restarts only across such a cleanup. */
  ghost predicate SameIncarnation(ws: seq<Workflow>, i: nat, j: nat)
    requires i <= j < |ws|
  {
    forall k :: i <= k <= j ==> ws[k].token.Some?
  }

  // ---------------------------------------------------------------- fencing tokens

  ghost function Starts(cs: seq<Handling>, i: nat, j: nat): nat
    requires i <= j <= |cs|
  {
    if i == j then 0
    else Starts(cs, i, j - 1) + (if cs[j - 1].request.Start? then 1 else 0)
  }

  /** Within an incarnation the stored token is a pure start counter. */
  lemma {:induction false} TokenCountsStarts(ws: seq<Workflow>, cs: seq<Handling>, i: nat, j: nat)
    requires IsRun(ws, cs) && i <= j <= |cs| && SameIncarnation(ws, i, j)
    ensures ws[j].token.value == ws[i].token.value + Starts(cs, i, j)
    decreases j
  {
    if i < j {
      assert ws[j] == Handle(ws[j - 1], cs[j - 1].now, cs[j - 1].request).after;
      TokenCountsStarts(ws, cs, i, j - 1);
    }
  }

  lemma {:induction false} StartBetween(cs: seq<Handling>, i: nat, j: nat)
    requires i <= j <= |cs|
    ensures Starts(cs, i, j) > 0 <==> exists k :: i <= k < j && cs[k].request.Start?
    decreases j
  {
    if i < j {
      StartBetween(cs, i, j - 1);
    }
  }

  /** Tokens handed out in one incarnation are pairwise distinct and rise with every start. */
  lemma IssuedTokensRise(ws: seq<Workflow>, cs: seq<Handling>, i: nat, j: nat)
    requires IsRun(ws, cs) && i < j < |cs|
    requires cs[i].request.Start? && cs[j].request.Start? && SameIncarnation(ws, i + 1, j + 1)
    ensures ReplyAt(ws, cs, i).Started? && ReplyAt(ws, cs, j).Started?
    ensures ReplyAt(ws, cs, j).token == ReplyAt(ws, cs, i).token + Starts(cs, i + 1, j) + 1
  {
    assert ws[i + 1].token == Some(ReplyAt(ws, cs, i).token);
    TokenCountsStarts(ws, cs, i + 1, j);
  }

  /** A runner whose checkpoint is accepted is told to abort exactly when somebody has
      started the workflow since that runner did. */
  lemma AbortTellsOfNewerStart(ws: seq<Workflow>, cs: seq<Handling>, i: nat, j: nat)
    requires IsRun(ws, cs) && i < j < |cs| && SameIncarnation(ws, i + 1, j)
    requires ReplyAt(ws, cs, i).Started? && cs[j].request.Checkpoint?
    requires cs[j].request.token == ReplyAt(ws, cs, i).token && ReplyAt(ws, cs, j).Acknowledged?
    ensures ReplyAt(ws, cs, j).abort <==> exists k :: i < k < j && cs[k].request.Start?
  {
    assert ws[i + 1].token == Some(ReplyAt(ws, cs, i).token);
    TokenCountsStarts(ws, cs, i + 1, j);
    StartBetween(cs, i + 1, j);
    hide Starts, IsRun, SameIncarnation;
  }

  /** Fencing, whatever the timing: once a newer start is issued, no older token is
      granted a lease at any position of the incarnation. */
  lemma SupersededTokensGetNoLease(ws: seq<Workflow>, cs: seq<Handling>, i: nat, j: nat)
    requires IsRun(ws, cs) && i < j < |cs| && SameIncarnation(ws, i + 1, j)
    requires ReplyAt(ws, cs, i).Started? && cs[j].request.Lease?
    requires cs[j].request.token < ReplyAt(ws, cs, i).token
    ensures !ReplyAt(ws, cs, j).Granted?
    ensures ws[j + 1] == ws[j]
  {
    assert ws[i + 1].token == Some(ReplyAt(ws, cs, i).token);
    TokenCountsStarts(ws, cs, i + 1, j);
  }

  /** Grants, at whatever positions, carry nondecreasing tokens. */
  lemma GrantsCarryRisingTokens(ws: seq<Workflow>, cs: seq<Handling>, i: nat, j: nat)
    requires IsRun(ws, cs) && i < j < |cs| && SameIncarnation(ws, i, j)
    requires ReplyAt(ws, cs, i).Granted? && ReplyAt(ws, cs, j).Granted?
    ensures cs[i].request.token == ws[i].token.value
    ensures cs[j].request.token == cs[i].request.token + Starts(cs, i, j)
  {
    TokenCountsStarts(ws, cs, i, j);
  }

  /** Completion is open to every token issued so far, older ones included, and closed only
      to a token not issued yet. */
  lemma AnyIssuedTokenMayFinish(ws: seq<Workflow>, cs: seq<Handling>, i: nat, j: nat)
    requires IsRun(ws, cs) && i < j < |cs| && SameIncarnation(ws, i + 1, j)
    requires ReplyAt(ws, cs, i).Started? && cs[j].request.Finish?
    ensures ReplyAt(ws, cs, j) == Finished <==>
              cs[j].request.token <= ReplyAt(ws, cs, i).token + Starts(cs, i + 1, j)
  {
    assert ws[i + 1].token == Some(ReplyAt(ws, cs, i).token);
    TokenCountsStarts(ws, cs, i + 1, j);
  }

  // ---------------------------------------------------------------- rows

  ghost predicate SameRow(w: Workflow, v: Workflow, p: int) {
    p in w.rows && p in v.rows && w.rows[p].key == v.rows[p].key && w.rows[p].value == v.rows[p].value
  }

  /** First write wins: in an incarnation a row's key and value never change, not even
      from an absent value to a present one. */
  lemma {:induction false} FirstWriteWins(ws: seq<Workflow>, cs: seq<Handling>, i: nat, j: nat, p: int)
    requires IsRun(ws, cs) && i <= j <= |cs| && SameIncarnation(ws, i, j) && p in ws[i].rows
    ensures SameRow(ws[i], ws[j], p)
    decreases j
  {
    if i < j {
      assert ws[j] == Handle(ws[j - 1], cs[j - 1].now, cs[j - 1].request).after;
      FirstWriteWins(ws, cs, i, j - 1, p);
    }
  }

  /** Every durable key handed out for a position is the same one, whoever asks, and it is
      the key the lease check compares with. */
  lemma DurableKeyIsStable(ws: seq<Workflow>, cs: seq<Handling>, i: nat, j: nat)
    requires IsRun(ws, cs) && i < j < |cs| && SameIncarnation(ws, i, j)
    requires cs[i].request.MakeKey? && ReplyAt(ws, cs, i).KeyIs?
    ensures cs[j].request.MakeKey? && cs[j].request.position == cs[i].request.position ==>
              ReplyAt(ws, cs, j) == ReplyAt(ws, cs, i)
    ensures cs[j].request.Lease? && cs[j].request.position == cs[i].request.position ==>
              (ReplyAt(ws, cs, j) == Refused(NonDeterministicCheckpoint)
               <==> cs[j].request.key != ReplyAt(ws, cs, i).key)
  {
    var p := cs[i].request.position;
    assert p in ws[i + 1].rows && ws[i + 1].rows[p].key == ReplyAt(ws, cs, i).key;
    FirstWriteWins(ws, cs, i + 1, j, p);
  }

  /** Once a position has a row, a lease there is never granted again; it is answered with
      a value exactly if the keys agree and the row was first written with a value. */
  lemma RowEndsLeasing(ws: seq<Workflow>, cs: seq<Handling>, i: nat, j: nat)
    requires IsRun(ws, cs) && i <= j < |cs| && SameIncarnation(ws, i, j)
    requires cs[j].request.Lease? && cs[j].request.position in ws[i].rows
    ensures var row := ws[i].rows[cs[j].request.position];
            && ws[j + 1] == ws[j]
            && !ReplyAt(ws, cs, j).Granted?
            && (ReplyAt(ws, cs, j).Stored? <==> row.key == cs[j].request.key && row.value.Some?)
            && (ReplyAt(ws, cs, j).Stored? ==> Some(ReplyAt(ws, cs, j).value) == row.value)
  {
    FirstWriteWins(ws, cs, i, j, cs[j].request.position);
  }

  /** A durable key generated for a position nobody has checkpointed closes the position:
      for the rest of the incarnation every lease there is refused. */
  lemma GeneratedKeyClosesPosition(ws: seq<Workflow>, cs: seq<Handling>, i: nat, j: nat)
    requires IsRun(ws, cs) && i < j < |cs| && SameIncarnation(ws, i, j)
    requires cs[i].request.MakeKey? && ReplyAt(ws, cs, i).KeyIs?
    requires cs[j].request.Lease? && cs[j].request.position == cs[i].request.position
    ensures cs[i].request.position !in ws[i].rows ==> ReplyAt(ws, cs, j).Refused?
    ensures ReplyAt(ws, cs, j) == Refused(CheckpointValueNotFound) <==>
              cs[j].request.key == ReplyAt(ws, cs, i).key &&
              (cs[i].request.position in ws[i].rows ==> ws[i].rows[cs[i].request.position].value.None?)
  {
    FirstWriteWins(ws, cs, i + 1, j, cs[i].request.position);
  }

  // ---------------------------------------------------------------- re-delivery

  /** A position with a stored value has no lease entry. */
  ghost predicate ValuesAreUnleased(w: Workflow) {
    forall p :: p in w.rows && w.rows[p].value.Some? ==> p !in w.leases
  }

  ghost predicate SameButTimes(w: Workflow, v: Workflow) {
    && w.meta == v.meta && w.token == v.token && w.leases == v.leases
    && (forall p :: p in w.rows <==> p in v.rows)
    && (forall p :: p in w.rows ==> SameRow(w, v, p))
  }

  /** A checkpoint request for a position whose value is already stored. */
  ghost predicate IsRedelivery(w: Workflow, q: Request) {
    q.Checkpoint? && q.position in w.rows && w.rows[q.position].value.Some?
  }

  lemma ValuesStayUnleased(w: Workflow, now: int, q: Request)
    requires ValuesAreUnleased(w)
    ensures ValuesAreUnleased(Handle(w, now, q).after)
  {
  }

  lemma RedeliveryChangesNothing(w: Workflow, now: int, q: Request)
    requires ValuesAreUnleased(w) && IsRedelivery(w, q)
    ensures SameButTimes(w, Handle(w, now, q).after)
    ensures w.token.Some? ==> Handle(w, now, q).reply == Acknowledged(w.token.value > q.token)
  {
  }

  lemma CheckpointIgnoresTimes(w: Workflow, v: Workflow, now: int, q: Request)
    requires SameButTimes(w, v) && q.Checkpoint?
    ensures Handle(w, now, q).reply == Handle(v, now, q).reply
    ensures SameButTimes(Handle(w, now, q).after, Handle(v, now, q).after)
  {
    var row := Row(q.key, Some(q.value), now);
    UpsertIgnoresTimes(w.(leases := w.leases - {q.position}), v.(leases := v.leases - {q.position}), q.position, row);
    hide Upsert, TimeLeft;
  }

  lemma HandlingIgnoresTimes(w: Workflow, v: Workflow, now: int, q: Request)
    requires SameButTimes(w, v)
    ensures Handle(w, now, q).reply == Handle(v, now, q).reply
    ensures SameButTimes(Handle(w, now, q).after, Handle(v, now, q).after)
  {
    hide Upsert, TimeLeft, CacheLife, WrapAdd, Expired;
    match q
    case Checkpoint(_, _, _, _) => CheckpointIgnoresTimes(w, v, now, q);
    case MakeKey(_, position, newKey) => UpsertIgnoresTimes(w, v, position, Row(newKey, None, now));
    case _ =>
  }

  lemma UpsertIgnoresTimes(w: Workflow, v: Workflow, position: int, row: Row)
    requires SameButTimes(w, v)
    ensures SameButTimes(w.(rows := Upsert(w.rows, position, row)), v.(rows := Upsert(v.rows, position, row)))
  {
  }

  ghost function After(w: Workflow, cs: seq<Handling>): Workflow
    decreases |cs|
  {
    if cs == [] then w else After(Handle(w, cs[0].now, cs[0].request).after, cs[1..])
  }

  ghost function Replies(w: Workflow, cs: seq<Handling>): seq<Reply>
    decreases |cs|
  {
    if cs == [] then []
    else
      var out := Handle(w, cs[0].now, cs[0].request);
      [out.reply] + Replies(out.after, cs[1..])
  }

  /** The run with all re-deliveries struck out. */
  ghost function Pruned(w: Workflow, cs: seq<Handling>): seq<Handling>
    decreases |cs|
  {
    if cs == [] then []
    else
      var rest := Pruned(Handle(w, cs[0].now, cs[0].request).after, cs[1..]);
      if IsRedelivery(w, cs[0].request) then rest else [cs[0]] + rest
  }

  /** The replies of a run to all requests but the re-deliveries. */
  ghost function OtherReplies(w: Workflow, cs: seq<Handling>): seq<Reply>
    decreases |cs|
  {
    if cs == [] then []
    else
      var out := Handle(w, cs[0].now, cs[0].request);
      var rest := OtherReplies(out.after, cs[1..]);
      if IsRedelivery(w, cs[0].request) then rest else [out.reply] + rest
  }

  lemma {:induction false} PruningFrom(v: Workflow, w: Workflow, cs: seq<Handling>)
    requires SameButTimes(v, w) && ValuesAreUnleased(w)
    ensures Replies(v, Pruned(w, cs)) == OtherReplies(w, cs)
    ensures SameButTimes(After(v, Pruned(w, cs)), After(w, cs))
    decreases |cs|
  {
    if cs != [] {
      var now, q := cs[0].now, cs[0].request;
      var w' := Handle(w, now, q).after;
      ValuesStayUnleased(w, now, q);
      if IsRedelivery(w, q) {
        RedeliveryChangesNothing(w, now, q);
        PruningFrom(v, w', cs[1..]);
      } else {
        HandlingIgnoresTimes(v, w, now, q);
        var v' := Handle(v, now, q).after;
        PruningFrom(v', w', cs[1..]);
        var rest := Pruned(w', cs[1..]);
        assert Pruned(w, cs) == [cs[0]] + rest && ([cs[0]] + rest)[1..] == rest;
      }
    }
  }

  /** Re-delivery is harmless: with any number of repeated or delayed checkpoint requests
      anywhere in a run, all other requests are answered as if those had never come, and
      the run ends in the same keys, values, leases and token. */
  lemma RedeliveriesAreUnobservable(w: Workflow, cs: seq<Handling>)
    requires ValuesAreUnleased(w)
    ensures Replies(w, Pruned(w, cs)) == OtherReplies(w, cs)
    ensures SameButTimes(After(w, Pruned(w, cs)), After(w, cs))
  {
    PruningFrom(w, w, cs);
  }

  // ---------------------------------------------------------------- retention

  /** Checkpoint rows belong to a workflow with a token, and a token to a workflow with metadata. */
  ghost predicate Linked(w: Workflow) {
    && (w.rows != imap[] ==> w.token.Some?)
    && (w.token.Some? ==> w.meta.Some?)
  }

  lemma StaysLinked(w: Workflow, now: int, q: Request)
    requires Linked(w)
    ensures Linked(Handle(w, now, q).after)
  {
  }

  lemma {:induction false} AlwaysLinked(ws: seq<Workflow>, cs: seq<Handling>, k: nat)
    requires IsRun(ws, cs) && k <= |cs| && Linked(ws[0])
    ensures Linked(ws[k])
  {
    if k > 0 {
      AlwaysLinked(ws, cs, k - 1);
      StaysLinked(ws[k - 1], cs[k - 1].now, cs[k - 1].request);
      assert ws[k] == Handle(ws[k - 1], cs[k - 1].now, cs[k - 1].request).after;
    }
  }

  ghost predicate FinishedAt(ws: seq<Workflow>, cs: seq<Handling>, f: nat)
    requires IsRun(ws, cs) && f < |cs|
  {
    cs[f].request.Finish? && ReplyAt(ws, cs, f) == Finished
  }

  /** `f` is the most recent completion before state `k`, in that state's incarnation. */
  ghost predicate IsLastFinish(ws: seq<Workflow>, cs: seq<Handling>, f: nat, k: nat)
    requires IsRun(ws, cs) && f < k <= |cs|
  {
    && FinishedAt(ws, cs, f) && SameIncarnation(ws, f, k)
    && forall g :: f < g < k ==> !FinishedAt(ws, cs, g)
  }

  lemma {:induction false} ExpiryComesFromLastFinish(ws: seq<Workflow>, cs: seq<Handling>, k: nat) returns (f: nat)
    requires IsRun(ws, cs) && k <= |cs| && ws[0] == NewWorkflow
    requires ws[k].token.Some? && ws[k].meta.Some? && ws[k].meta.value.expireAt.Some?
    ensures f < k && IsLastFinish(ws, cs, f, k)
    ensures ws[k].meta.value.expireAt == Some(WrapAdd(cs[f].now, cs[f].request.expireAfter))
  {
    assert ws[k] == Handle(ws[k - 1], cs[k - 1].now, cs[k - 1].request).after;
    AlwaysLinked(ws, cs, k - 1);
    if FinishedAt(ws, cs, k - 1) {
      f := k - 1;
    } else {
      AlwaysDated(ws, cs, k - 1);
      f := ExpiryComesFromLastFinish(ws, cs, k - 1);
    }
  }

  /** Metadata and token come and go together, and an expiry means a completion. */
  ghost predicate Dated(w: Workflow) {
    && (w.token.Some? <==> w.meta.Some?)
    && (w.meta.Some? ==> (w.meta.value.status == Completed <==> w.meta.value.expireAt.Some?))
  }

  lemma StaysDated(w: Workflow, now: int, q: Request)
    requires Dated(w)
    ensures Dated(Handle(w, now, q).after)
  {
  }

  lemma {:induction false} AlwaysDated(ws: seq<Workflow>, cs: seq<Handling>, k: nat)
    requires IsRun(ws, cs) && k <= |cs| && Dated(ws[0])
    ensures Dated(ws[k])
  {
    if k > 0 {
      AlwaysDated(ws, cs, k - 1);
      StaysDated(ws[k - 1], cs[k - 1].now, cs[k - 1].request);
      assert ws[k] == Handle(ws[k - 1], cs[k - 1].now, cs[k - 1].request).after;
    }
  }

  /** Retention: if a run that began with a fresh workflow loses a checkpoint row, then at
      some leader's cleanup whose clock was strictly past the expiry set by the most recent
      completion. An uncompleted workflow therefore survives every cleanup. */
  lemma {:induction false} RowsLastUntilExpiry(ws: seq<Workflow>, cs: seq<Handling>, i: nat, j: nat, p: int)
    returns (f: nat, k: nat)
    requires IsRun(ws, cs) && i <= j <= |cs| && ws[0] == NewWorkflow
    requires p in ws[i].rows && p !in ws[j].rows
    ensures i <= k < j && f < k && IsLastFinish(ws, cs, f, k)
    ensures cs[k].request == Cleanup(true)
    ensures cs[k].now > WrapAdd(cs[f].now, cs[f].request.expireAfter)
    ensures ws[k + 1] == NewWorkflow.(leases := ws[k].leases)
    decreases j
  {
    if p in ws[j - 1].rows {
      k := j - 1;
      assert ws[j] == Handle(ws[k], cs[k].now, cs[k].request).after;
      AlwaysLinked(ws, cs, k);
      f := ExpiryComesFromLastFinish(ws, cs, k);
    } else {
      f, k := RowsLastUntilExpiry(ws, cs, i, j - 1, p);
    }
  }

  /** Within an incarnation a completed workflow stays completed, through restarts too. */
  lemma {:induction false} CompletionIsFinal(ws: seq<Workflow>, cs: seq<Handling>, i: nat, j: nat)
    requires IsRun(ws, cs) && i <= j <= |cs| && SameIncarnation(ws, i, j) && ws[0] == NewWorkflow
    requires ws[i].meta.Some? && ws[i].meta.value.status == Completed
    ensures ws[j].meta.Some? && ws[j].meta.value.status == Completed
    decreases j
  {
    if i < j {
      CompletionIsFinal(ws, cs, i, j - 1);
      assert ws[j] == Handle(ws[j - 1], cs[j - 1].now, cs[j - 1].request).after;
    }
  }
}
