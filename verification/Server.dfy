/** The server over its stores: three tables and a string-keyed lease cache shared by all
    workflows. Every handler is proved to do to the addressed workflow what `Protocol`
    says, and to leave every other workflow alone. */
module Server {
  import opened Wrappers
  import opened LeaseTime
  import opened LeaseKeys
  import opened Protocol
  import opened History

  /** A request as it reaches the server; cleanup is the one that names no workflow. */
  datatype Call = Call(id: string, now: int, request: Request)

  predicate Concerns(call: Call, id: string) {
    call.id == id || call.request.Cleanup?
  }

  /** What a call leaves of a workflow: its own and cleanup are handled, the rest pass by. */
  ghost function Effect(w: Workflow, id: string, call: Call): Workflow {
    if Concerns(call, id) then Handle(w, call.now, call.request).after else w
  }

  /** The run of one workflow that a run of the whole server contains. */
  ghost function Isolated(w: Workflow, id: string, calls: seq<Call>): Workflow {
    if calls == [] then w
    else Effect(Isolated(w, id, calls[..|calls| - 1]), id, calls[|calls| - 1])
  }

  lemma OneMoreCall(w: Workflow, id: string, calls: seq<Call>, i: nat)
    requires i < |calls|
    ensures Isolated(w, id, calls[..i + 1]) == Effect(Isolated(w, id, calls[..i]), id, calls[i])
  {
    assert calls[..i + 1][..i] == calls[..i];
  }

  /** The reply the i-th call gets when its workflow is served alone. */
  ghost function AnswerAlone(w: Workflow, calls: seq<Call>, i: nat): Reply
    requires i < |calls|
  {
    Handle(Isolated(w, calls[i].id, calls[..i]), calls[i].now, calls[i].request).reply
  }

  /** One workflow's share of the lease cache. */
  ghost function LeasesOf(cache: map<string, LeaseEntry>, id: string): imap<int, LeaseEntry> {
    imap p: int | LeaseKey(id, p) in cache :: cache[LeaseKey(id, p)]
  }

  lemma PutTouchesOneLease(cache: map<string, LeaseEntry>, id: string, position: int, entry: LeaseEntry)
    ensures var cache' := cache[LeaseKey(id, position) := entry];
            && LeasesOf(cache', id) == LeasesOf(cache, id)[position := entry]
            && forall other :: other != id ==> LeasesOf(cache', other) == LeasesOf(cache, other)
  {
    hide LeaseKey;
    var cache' := cache[LeaseKey(id, position) := entry];
    forall other, p | LeaseKey(other, p) == LeaseKey(id, position)
      ensures other == id && p == position
    {
      LeaseKeyDeterminesPlace(other, p, id, position);
    }
    assert LeasesOf(cache', id) == LeasesOf(cache, id)[position := entry];
  }

  lemma RemoveTouchesOneLease(cache: map<string, LeaseEntry>, id: string, position: int)
    ensures var cache' := cache - {LeaseKey(id, position)};
            && LeasesOf(cache', id) == LeasesOf(cache, id) - {position}
            && forall other :: other != id ==> LeasesOf(cache', other) == LeasesOf(cache, other)
  {
    hide LeaseKey;
    var cache' := cache - {LeaseKey(id, position)};
    forall other, p | LeaseKey(other, p) == LeaseKey(id, position)
      ensures other == id && p == position
    {
      LeaseKeyDeterminesPlace(other, p, id, position);
    }
    assert LeasesOf(cache', id) == LeasesOf(cache, id) - {position};
  }

  class Stores {
    var workflows: map<string, Meta>
    var tokens: map<string, int>
    var checkpoints: map<(string, int), Row>
    var leaseCache: map<string, LeaseEntry>

    /** One workflow's share of the stores. */
    ghost function Of(id: string): Workflow
      reads this
    {
      Workflow(
        if id in workflows then Some(workflows[id]) else None,
        if id in tokens then Some(tokens[id]) else None,
        imap p: int | (id, p) in checkpoints :: checkpoints[(id, p)],
        LeasesOf(leaseCache, id))
    }

    /** Every checkpoint belongs to a workflow with a token, every token to a known workflow. */
    ghost predicate NoOrphans()
      reads this
    {
      && (forall at :: at in checkpoints ==> at.0 in tokens)
      && (forall id :: id in tokens ==> id in workflows)
    }

    lemma NoOrphansMeansLinked()
      ensures NoOrphans() <==> forall id :: Linked(Of(id))
    {
      if NoOrphans() {
        forall id
          ensures Linked(Of(id))
        {
          if Of(id).rows != imap[] {
            var p :| p in Of(id).rows;
          }
        }
      }
      if forall id :: Linked(Of(id)) {
        forall at | at in checkpoints
          ensures at.0 in tokens
        {
          assert Linked(Of(at.0)) && (at.0, at.1) in checkpoints;
          assert at.1 in Of(at.0).rows;
        }
        forall id | id in tokens
          ensures id in workflows
        {
          assert Linked(Of(id));
        }
      }
    }

    constructor ()
      ensures forall id :: Of(id) == NewWorkflow
    {
      workflows, tokens, checkpoints, leaseCache := map[], map[], map[], map[];
    }

    // ---- repositories: workflows ----

    method CreateOrGetWorkflow(id: string, now: int, name: Option<string>)
      modifies this`workflows
      ensures workflows == old(workflows)[id := OnStart(old(Of(id)), now, name).after.meta.value]
    {
      if id in workflows {
        workflows := workflows[id := workflows[id].(name := name)];
      } else {
        workflows := workflows[id := Meta(Running, name, now, None, None)];
      }
    }

    method DeleteExpiredWorkflows(now: int)
      modifies this`workflows
      ensures forall id :: Of(id) == old(Of(id)).(meta := OnCleanup(old(Of(id)), now, true).after.meta)
    {
      workflows := map id | id in workflows && !Expired(workflows[id], now) :: workflows[id];
    }

    // ---- repositories: fencing tokens ----

    method GetFencingToken(id: string) returns (token: Option<int>)
      ensures token == Of(id).token
    {
      token := if id in tokens then Some(tokens[id]) else None;
    }

    method IncrementFencingToken(id: string, first: int) returns (token: int)
      modifies this`tokens
      ensures Of(id) == old(Of(id)).(token := Some(token))
      ensures match old(Of(id)).token case Some(stored) => token == stored + 1 case None => token == first
      ensures forall other :: other != id ==> Of(other) == old(Of(other))
    {
      token := if id in tokens then tokens[id] + 1 else first;
      tokens := tokens[id := token];
    }

    method DeleteExpiredFencingTokens(now: int)
      modifies this`tokens
      ensures forall id :: Of(id) == old(Of(id)).(token := OnCleanup(old(Of(id)), now, true).after.token)
    {
      tokens := map id | id in tokens && !(id in workflows && Expired(workflows[id], now)) :: tokens[id];
    }

    // ---- repositories: checkpoints ----

    method GetCheckpoint(id: string, position: int) returns (row: Option<Row>)
      ensures row == if position in Of(id).rows then Some(Of(id).rows[position]) else None
    {
      row := if (id, position) in checkpoints then Some(checkpoints[(id, position)]) else None;
    }

    method CreateCheckpoint(id: string, position: int, value: Option<Bytes>, key: string, now: int)
      modifies this`checkpoints
      ensures Of(id) == old(Of(id)).(rows := Upsert(old(Of(id)).rows, position, Row(key, value, now)))
      ensures forall other :: other != id ==> Of(other) == old(Of(other))
    {
      var at := (id, position);
      if at in checkpoints {
        checkpoints := checkpoints[at := checkpoints[at].(createdAt := now)];
      } else {
        checkpoints := checkpoints[at := Row(key, value, now)];
      }
      assert Of(id).rows == Upsert(old(Of(id)).rows, position, Row(key, value, now));
      forall other | other != id
        ensures Of(other) == old(Of(other))
      {
        assert Of(other).rows == old(Of(other)).rows;
      }
    }

    method DeleteExpiredCheckpoints(now: int)
      modifies this`checkpoints
      ensures forall id :: Of(id) == old(Of(id)).(rows := OnCleanup(old(Of(id)), now, true).after.rows)
    {
      checkpoints := map at | at in checkpoints && !(at.0 in workflows && Expired(workflows[at.0], now)) ::
        checkpoints[at];
    }

    // ---- repositories: lease cache ----

    method PutLease(id: string, position: int, timeout: int, now: int)
      modifies this`leaseCache
      ensures Of(id) == old(Of(id)).(leases := old(Of(id)).leases[position := LeaseEntry(now, timeout)])
      ensures forall other :: other != id ==> Of(other) == old(Of(other))
    {
      PutTouchesOneLease(leaseCache, id, position, LeaseEntry(now, timeout));
      leaseCache := leaseCache[LeaseKey(id, position) := LeaseEntry(now, timeout)];
    }

    method GetLease(id: string, position: int) returns (entry: Option<LeaseEntry>)
      ensures entry == if position in Of(id).leases then Some(Of(id).leases[position]) else None
    {
      var slot := LeaseKey(id, position);
      entry := if slot in leaseCache then Some(leaseCache[slot]) else None;
    }

    method RemoveLease(id: string, position: int) returns (entry: Option<LeaseEntry>)
      modifies this`leaseCache
      ensures entry == if position in old(Of(id)).leases then Some(old(Of(id)).leases[position]) else None
      ensures Of(id) == old(Of(id)).(leases := old(Of(id)).leases - {position})
      ensures forall other :: other != id ==> Of(other) == old(Of(other))
    {
      var slot := LeaseKey(id, position);
      entry := if slot in leaseCache then Some(leaseCache[slot]) else None;
      RemoveTouchesOneLease(leaseCache, id, position);
      leaseCache := leaseCache - {slot};
    }

    // ---- services ----

    method CreateWorkflow(id: string, now: int, name: Option<string>) returns (reply: Reply)
      modifies this
      ensures Outcome(Of(id), reply) == Handle(old(Of(id)), now, Start(name))
      ensures forall other :: other != id ==> Of(other) == old(Of(other))
    {
      CreateOrGetWorkflow(id, now, name);
      var token := IncrementFencingToken(id, 1);
      reply := Started(token);
    }

    method HandleLease(id: string, now: int, token: int, position: int, timeout: int, key: string)
      returns (reply: Reply)
      modifies this
      ensures Outcome(Of(id), reply) == Handle(old(Of(id)), now, Lease(token, position, timeout, key))
      ensures forall other :: other != id ==> Of(other) == old(Of(other))
    {
      var row := GetCheckpoint(id, position);
      if row.Some? {
        if row.value.key != key {
          return Refused(NonDeterministicCheckpoint);
        }
        if row.value.value.None? {
          return Refused(CheckpointValueNotFound);
        }
        return Stored(row.value.value.value);
      }
      var lease := GetLease(id, position);
      var found := GetFencingToken(id);
      if lease.Some? {
        var remaining := TimeLeft(lease.value, now);
        if remaining > 0 {
          return Remaining(remaining);
        }
      }
      if found.None? {
        return Refused(FencingTokenNotFound);
      }
      if found.value > token {
        return Refused(FencingTokenExpired);
      }
      if token == found.value {
        PutLease(id, position, timeout, now);
        return Granted;
      }
      return Refused(UnexpectedState);
    }

    method HandleCheckpoint(id: string, now: int, token: int, position: int, value: Bytes, key: string)
      returns (reply: Reply)
      modifies this
      ensures Outcome(Of(id), reply) == Handle(old(Of(id)), now, Checkpoint(token, position, value, key))
      ensures forall other :: other != id ==> Of(other) == old(Of(other))
    {
      var found := GetFencingToken(id);
      var lease := RemoveLease(id, position);
      if found.None? {
        return Refused(FencingTokenNotFound);
      }
      var abort := false;
      var tokenExpired := found.value > token;
      if lease.Some? && TimeLeft(lease.value, now) <= 0 {
        if tokenExpired {
          return Refused(FencingTokenExpired);
        }
      }
      if tokenExpired {
        abort := true;
      }
      CreateCheckpoint(id, position, Some(value), key, now);
      reply := Acknowledged(abort);
    }

    method ReleaseCheckpoint(id: string, position: int) returns (reply: Reply)
      modifies this
      ensures forall now :: Outcome(Of(id), reply) == Handle(old(Of(id)), now, Release(position))
      ensures forall other :: other != id ==> Of(other) == old(Of(other))
    {
      var _ := RemoveLease(id, position);
      reply := Released;
    }

    method CreateDurableIdempotencyKey(id: string, now: int, token: int, position: int, newKey: string)
      returns (reply: Reply)
      modifies this
      ensures Outcome(Of(id), reply) == Handle(old(Of(id)), now, MakeKey(token, position, newKey))
      ensures forall other :: other != id ==> Of(other) == old(Of(other))
    {
      var row := GetCheckpoint(id, position);
      if row.Some? {
        return KeyIs(row.value.key);
      }
      var found := GetFencingToken(id);
      if found.None? {
        return Refused(FencingTokenNotFound);
      }
      if found.value > token {
        return Refused(FencingTokenExpired);
      }
      CreateCheckpoint(id, position, None, newKey, now);
      reply := KeyIs(newKey);
    }

    method FinishWorkflow(id: string, now: int, token: int, expireAfter: int) returns (reply: Reply)
      modifies this
      ensures Outcome(Of(id), reply) == Handle(old(Of(id)), now, Finish(token, expireAfter))
      ensures forall other :: other != id ==> Of(other) == old(Of(other))
    {
      var found := GetFencingToken(id);
      if found.None? {
        return Refused(FencingTokenNotFound);
      }
      if found.value < token {
        return Refused(FencingTokenExpired);
      }
      var expireAt := WrapAdd(now, expireAfter);
      if id in workflows {
        workflows := workflows[id := workflows[id].(
          status := Completed, expireAt := Some(expireAt), completedAt := Some(now))];
      }
      reply := Finished;
    }

    /** Three deletes on one timestamp; the two that look up workflows go before the third. */
    method HandleWorkflowCleanup(now: int, leader: bool) returns (reply: Reply)
      modifies this
      ensures forall id :: Outcome(Of(id), reply) == Handle(old(Of(id)), now, Cleanup(leader))
    {
      reply := Cleaned;
      if !leader {
        return;
      }
      DeleteExpiredFencingTokens(now);
      DeleteExpiredCheckpoints(now);
      DeleteExpiredWorkflows(now);
      forall id
        ensures Of(id) == OnCleanup(old(Of(id)), now, leader).after
      {
        if id in old(workflows) && Expired(old(workflows)[id], now) {
          assert Of(id).rows == imap[];
        } else {
          assert Of(id).rows == old(Of(id)).rows;
        }
      }
    }

    /** The cache's own expiry; it may strike any entry past its time to live. */
    method DropStaleLease(id: string, now: int, position: int) returns (reply: Reply)
      modifies this
      ensures Outcome(Of(id), reply) == Handle(old(Of(id)), now, Evict(position))
      ensures forall other :: other != id ==> Of(other) == old(Of(other))
    {
      var lease := GetLease(id, position);
      if lease.Some? && now >= lease.value.createdAt + CacheLife(lease.value.timeout) {
        var _ := RemoveLease(id, position);
      }
      reply := Evicted;
    }

    method Dispatch(call: Call) returns (reply: Reply)
      modifies this
      ensures forall id :: Of(id) == Effect(old(Of(id)), id, call)
      ensures reply == Handle(old(Of(call.id)), call.now, call.request).reply
    {
      var id, now := call.id, call.now;
      match call.request
      case Start(name) => reply := CreateWorkflow(id, now, name);
      case Lease(token, position, timeout, key) => reply := HandleLease(id, now, token, position, timeout, key);
      case Checkpoint(token, position, value, key) => reply := HandleCheckpoint(id, now, token, position, value, key);
      case Release(position) => reply := ReleaseCheckpoint(id, position);
      case MakeKey(token, position, newKey) => reply := CreateDurableIdempotencyKey(id, now, token, position, newKey);
      case Finish(token, expireAfter) => reply := FinishWorkflow(id, now, token, expireAfter);
      case Cleanup(leader) => reply := HandleWorkflowCleanup(now, leader);
      case Evict(position) => reply := DropStaleLease(id, now, position);
    }

    /** Any run of the whole server is, for each workflow, a run of that workflow alone:
        the calls of other workflows are invisible to its stores and to its replies. */
    method Serve(calls: seq<Call>) returns (replies: seq<Reply>)
      modifies this
      ensures forall id :: Of(id) == Isolated(old(Of(id)), id, calls)
      ensures |replies| == |calls|
      ensures forall i :: 0 <= i < |calls| ==>
                replies[i] == AnswerAlone(old(Of(calls[i].id)), calls, i)
      ensures old(NoOrphans()) ==> NoOrphans()
    {
      hide Of, Effect, Handle, NoOrphans;
      NoOrphansMeansLinked();
      replies := [];
      ghost var start := imap id: string | true :: Of(id);
      for i := 0 to |calls|
        invariant |replies| == i
        invariant forall id :: Of(id) == Isolated(start[id], id, calls[..i])
        invariant forall j :: 0 <= j < i ==> replies[j] == AnswerAlone(start[calls[j].id], calls, j)
      {
        forall id {
          OneMoreCall(start[id], id, calls, i);
        }
        var reply := Dispatch(calls[i]);
        replies := replies + [reply];
      }
      assert calls[..|calls|] == calls;
      NoOrphansMeansLinked();
      if old(NoOrphans()) {
        forall id
          ensures Linked(Of(id))
        {
          StaysLinkedAlone(start[id], id, calls);
        }
      }
    }
  }

  lemma {:induction false} StaysLinkedAlone(w: Workflow, id: string, calls: seq<Call>)
    requires Linked(w)
    ensures Linked(Isolated(w, id, calls))
  {
    if calls != [] {
      var n := |calls| - 1;
      StaysLinkedAlone(w, id, calls[..n]);
      StaysLinked(Isolated(w, id, calls[..n]), calls[n].now, calls[n].request);
    }
  }

  /** The requests a workflow sees of a run of the whole server. */
  function Involving(id: string, calls: seq<Call>): seq<Handling> {
    if calls == [] then []
    else
      var last := calls[|calls| - 1];
      var rest := Involving(id, calls[..|calls| - 1]);
      if Concerns(last, id) then rest + [Handling(last.now, last.request)] else rest
  }

  /** What a run of the whole server does to one workflow is a run of that workflow alone,
      on exactly the calls that concern it; so all that holds of such runs holds here. */
  lemma {:induction false} WorkflowsRunApart(w: Workflow, id: string, calls: seq<Call>) returns (ws: seq<Workflow>)
    ensures IsRun(ws, Involving(id, calls))
    ensures ws[0] == w && ws[|ws| - 1] == Isolated(w, id, calls)
  {
    hide Handle;
    if calls == [] {
      ws := [w];
    } else {
      var n := |calls| - 1;
      var last := calls[n];
      ws := WorkflowsRunApart(w, id, calls[..n]);
      if Concerns(last, id) {
        var cs := Involving(id, calls[..n]);
        RunGrows(ws, cs, last.now, last.request);
        ws := ws + [Handle(ws[|cs|], last.now, last.request).after];
      }
    }
  }
}
