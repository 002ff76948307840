/** What the server stores and answers, told from the requests that came before and from how
    they were answered: the token from the starts, a row from the writes, a lease from the
    grants, the metadata from starts and completions. Any clients, any order, any repeats. */
module Answers {
  import opened Wrappers
  import opened LeaseTime
  import opened Protocol
  import opened History
  import opened GrantBound

  /** Start `s` finds no workflow, and the one it creates lasts up to state `j`. */
  ghost predicate Creates(ws: seq<Workflow>, cs: seq<Handling>, s: nat, j: nat)
    requires IsRun(ws, cs)
  {
    && s < j <= |cs| && cs[s].request.Start? && SameIncarnation(ws, s + 1, j)
    && ws[s] == NewWorkflow.(leases := ws[s].leases)
  }

  /** Whenever there is a token, there is the start that created the workflow. */
  lemma {:induction false} WorkflowsAreCreated(ws: seq<Workflow>, cs: seq<Handling>, j: nat) returns (s: nat)
    requires IsRun(ws, cs) && j <= |cs| && ws[0] == NewWorkflow && ws[j].token.Some?
    ensures Creates(ws, cs, s, j)
  {
    assert ws[j] == Handle(ws[j - 1], cs[j - 1].now, cs[j - 1].request).after;
    if ws[j - 1].token.Some? {
      s := WorkflowsAreCreated(ws, cs, j - 1);
    } else {
      s := j - 1;
      AlwaysLinked(ws, cs, s);
      AlwaysDated(ws, cs, s);
    }
  }

  // ---------------------------------------------------------------- the token

  lemma {:induction false} StartsSplit(cs: seq<Handling>, i: nat, k: nat, j: nat)
    requires i <= k <= j <= |cs|
    ensures Starts(cs, i, j) == Starts(cs, i, k) + Starts(cs, k, j)
    decreases j
  {
    if k < j {
      StartsSplit(cs, i, k, j - 1);
    }
  }

  /** The stored token is the number of starts since the workflow was created, that one
      included. */
  lemma TokenIsStartCount(ws: seq<Workflow>, cs: seq<Handling>, s: nat, j: nat)
    requires IsRun(ws, cs) && Creates(ws, cs, s, j)
    ensures ws[j].token == Some(Starts(cs, s, j)) && Starts(cs, s, j) > 0
  {
    assert ws[s + 1] == Handle(ws[s], cs[s].now, cs[s].request).after;
    assert ws[s + 1].token == Some(1) && ws[j].token.Some?;
    TokenCountsStarts(ws, cs, s + 1, j);
    StartsSplit(cs, s, s + 1, j);
    assert Starts(cs, s, s + 1) == Starts(cs, s, s) + 1;
    hide Handle, IsRun, Creates, SameIncarnation;
  }

  /** A token is superseded exactly if there was a start after the one that issued it. */
  lemma SupersededByLaterStart(ws: seq<Workflow>, cs: seq<Handling>, s: nat, k: nat, j: nat)
    requires IsRun(ws, cs) && Creates(ws, cs, s, j) && s <= k < j && cs[k].request.Start?
    ensures ReplyAt(ws, cs, k).Started?
    ensures ReplyAt(ws, cs, k).token < Starts(cs, s, j) <==> exists l :: k < l < j && cs[l].request.Start?
    ensures 0 < ReplyAt(ws, cs, k).token <= Starts(cs, s, j)
  {
    StartIsNumbered(ws, cs, s, k, j);
    StartsSplit(cs, s, k, j);
    StartsSplit(cs, k, k + 1, j);
    StartBetween(cs, k + 1, j);
    assert Starts(cs, k, k + 1) == Starts(cs, k, k) + 1;
    hide Handle, IsRun, ReplyAt, Creates;
  }

  lemma StartIsNumbered(ws: seq<Workflow>, cs: seq<Handling>, s: nat, k: nat, j: nat)
    requires IsRun(ws, cs) && Creates(ws, cs, s, j) && s <= k < j && cs[k].request.Start?
    ensures ReplyAt(ws, cs, k) == Started(Starts(cs, s, k) + 1)
  {
    if s < k {
      TokenIsStartCount(ws, cs, s, k);
      hide Starts, SameIncarnation, Creates;
    }
  }

  // ---------------------------------------------------------------- rows

  /** A checkpoint that is acknowledged, or a key that is given. */
  ghost predicate IsWrite(ws: seq<Workflow>, cs: seq<Handling>, k: nat, p: int)
    requires IsRun(ws, cs) && k < |cs|
  {
    || (cs[k].request.Checkpoint? && cs[k].request.position == p && ReplyAt(ws, cs, k).Acknowledged?)
    || (cs[k].request.MakeKey? && cs[k].request.position == p && ReplyAt(ws, cs, k).KeyIs?)
  }

  /** The first write at `p` from request `s` on, if any. */
  ghost function FirstWrite(ws: seq<Workflow>, cs: seq<Handling>, s: nat, j: nat, p: int): (k: Option<nat>)
    requires IsRun(ws, cs) && s <= j <= |cs|
    ensures k.Some? ==> s <= k.value < j && IsWrite(ws, cs, k.value, p)
  {
    if s == j then None
    else
      var before := FirstWrite(ws, cs, s, j - 1, p);
      if before.None? && IsWrite(ws, cs, j - 1, p) then Some(j - 1) else before
  }

  lemma {:induction false} FirstWriteIsFirst(ws: seq<Workflow>, cs: seq<Handling>, s: nat, l: nat, j: nat, p: int)
    requires IsRun(ws, cs) && s <= l < j <= |cs| && IsWrite(ws, cs, l, p)
    ensures FirstWrite(ws, cs, s, j, p).Some? && FirstWrite(ws, cs, s, j, p).value <= l
    decreases j
  {
    if l < j - 1 {
      FirstWriteIsFirst(ws, cs, s, l, j - 1, p);
    }
  }

  /** The last checkpoint acknowledged at `p` from request `s` on, or else the first write. */
  ghost function LastDate(ws: seq<Workflow>, cs: seq<Handling>, s: nat, j: nat, p: int): (k: Option<nat>)
    requires IsRun(ws, cs) && s <= j <= |cs|
    ensures k.Some? <==> FirstWrite(ws, cs, s, j, p).Some?
    ensures k.Some? ==> k.value < j
  {
    if s == j then None
    else
      var before := LastDate(ws, cs, s, j - 1, p);
      if IsWrite(ws, cs, j - 1, p) && (cs[j - 1].request.Checkpoint? || before.None?) then Some(j - 1) else before
  }

  /** What a write would leave where there was nothing. */
  function RowFrom(h: Handling): Row
    requires h.request.Checkpoint? || h.request.MakeKey?
  {
    if h.request.Checkpoint? then Row(h.request.key, Some(h.request.value), h.now)
    else Row(h.request.newKey, None, h.now)
  }

  lemma OneWrite(ws: seq<Workflow>, cs: seq<Handling>, k: nat, p: int)
    requires IsRun(ws, cs) && k < |cs| && ws[k + 1].token.Some?
    ensures p in ws[k + 1].rows <==> p in ws[k].rows || IsWrite(ws, cs, k, p)
    ensures p !in ws[k].rows && IsWrite(ws, cs, k, p) ==> ws[k + 1].rows[p] == RowFrom(cs[k])
    ensures p in ws[k].rows ==>
              ws[k + 1].rows[p] == if IsWrite(ws, cs, k, p) && cs[k].request.Checkpoint?
                                   then ws[k].rows[p].(createdAt := cs[k].now) else ws[k].rows[p]
  {
    assert ws[k + 1] == Handle(ws[k], cs[k].now, cs[k].request).after;
  }

  /** A position has a row exactly if it was written; its key and value are those of the
      first write, and its date that of the last checkpoint acknowledged there. */
  ghost predicate RowFits(ws: seq<Workflow>, cs: seq<Handling>, s: nat, j: nat, p: int)
    requires IsRun(ws, cs) && s <= j <= |cs|
  {
    match FirstWrite(ws, cs, s, j, p)
    case None => p !in ws[j].rows
    case Some(k) =>
      && p in ws[j].rows
      && ws[j].rows[p].key == RowFrom(cs[k]).key && ws[j].rows[p].value == RowFrom(cs[k]).value
      && ws[j].rows[p].createdAt == cs[LastDate(ws, cs, s, j, p).value].now
  }

  lemma OneMoreRowFits(ws: seq<Workflow>, cs: seq<Handling>, s: nat, j: nat, p: int)
    requires IsRun(ws, cs) && s <= j < |cs| && RowFits(ws, cs, s, j, p) && ws[j + 1].token.Some?
    ensures RowFits(ws, cs, s, j + 1, p)
  {
    OneWrite(ws, cs, j, p);
    hide Handle, IsRun, IsWrite;
  }

  /** Rows are told from the writes since the workflow was created. */
  lemma {:induction false} RowsAreWrites(ws: seq<Workflow>, cs: seq<Handling>, s: nat, j: nat, p: int)
    requires IsRun(ws, cs) && Creates(ws, cs, s, j)
    ensures RowFits(ws, cs, s, j, p)
    decreases j
  {
    assert ws[j].token.Some?;
    if s + 1 < j {
      assert Creates(ws, cs, s, j - 1);
      hide Creates, RowFits;
      RowsAreWrites(ws, cs, s, j - 1, p);
    } else {
      assert RowFits(ws, cs, s, s, p);
    }
    hide Creates, RowFits, SameIncarnation;
    OneMoreRowFits(ws, cs, s, j - 1, p);
  }

  // ---------------------------------------------------------------- leases

  /** The last grant at `p` before state `j`, unless a release or checkpoint there, or the
      cache's expiry, has taken the lease away since. */
  ghost function StandingGrant(ws: seq<Workflow>, cs: seq<Handling>, j: nat, p: int): (g: Option<nat>)
    requires IsRun(ws, cs) && j <= |cs|
    ensures g.Some? ==> g.value < j && GrantedAt(ws, cs, g.value, p)
  {
    if j == 0 then None
    else
      var h, before := cs[j - 1], StandingGrant(ws, cs, j - 1, p);
      if GrantedAt(ws, cs, j - 1, p) then Some(j - 1)
      else if EndsLease(h.request, p) then None
      else if h.request == Evict(p) && before.Some? && h.now >= Dropped(cs[before.value]) then None
      else before
  }

  /** When the cache may drop a lease. */
  function Dropped(h: Handling): int
    requires h.request.Lease?
  {
    h.now + CacheLife(h.request.timeout)
  }

  function LeaseFrom(h: Handling): LeaseEntry
    requires h.request.Lease?
  {
    LeaseEntry(h.now, h.request.timeout)
  }

  lemma OneLeaseStep(ws: seq<Workflow>, cs: seq<Handling>, k: nat, p: int)
    requires IsRun(ws, cs) && k < |cs|
    ensures var h, before, after := cs[k], ws[k].leases, ws[k + 1].leases;
            if GrantedAt(ws, cs, k, p) then p in after && after[p] == LeaseFrom(h)
            else if EndsLease(h.request, p) then p !in after
            else if h.request == Evict(p) && p in before
                    && h.now >= before[p].createdAt + CacheLife(before[p].timeout) then p !in after
            else (p in after <==> p in before) && (p in before ==> after[p] == before[p])
  {
    assert ws[k + 1] == Handle(ws[k], cs[k].now, cs[k].request).after;
  }

  /** The cache holds the lease of the standing grant, and nothing if none stands. */
  lemma {:induction false} CacheIsStandingGrant(ws: seq<Workflow>, cs: seq<Handling>, j: nat, p: int)
    requires IsRun(ws, cs) && j <= |cs| && p !in ws[0].leases
    ensures match StandingGrant(ws, cs, j, p)
            case None => p !in ws[j].leases
            case Some(g) => p in ws[j].leases && ws[j].leases[p] == LeaseFrom(cs[g])
  {
    if j > 0 {
      OneLeaseStep(ws, cs, j - 1, p);
      hide Handle, IsRun, GrantedAt, CacheLife;
      CacheIsStandingGrant(ws, cs, j - 1, p);
    }
  }

  /** The end of the lease of the grant that stands, as far as the clock can tell. */
  ghost function EndOf(h: Handling): int
    requires h.request.Lease?
  {
    if h.now + h.request.timeout <= I64_MAX then h.now + h.request.timeout else I64_MAX
  }

  lemma TimeLeftOfGrant(h: Handling, now: int)
    requires h.request.Lease? && 0 <= now < I64_MAX
    ensures TimeLeft(LeaseFrom(h), now) > 0 <==> EndOf(h) > now
    ensures EndOf(h) > now ==> TimeLeft(LeaseFrom(h), now) == EndOf(h) - now
  {
  }

  // ---------------------------------------------------------------- metadata

  lemma OneMetaStep(ws: seq<Workflow>, cs: seq<Handling>, k: nat)
    requires IsRun(ws, cs) && k < |cs| && ws[k].meta.Some? && ws[k + 1].token.Some?
    ensures var h, m := cs[k], ws[k].meta.value;
            ws[k + 1].meta ==
            if h.request.Start? then Some(m.(name := h.request.name))
            else if FinishedAt(ws, cs, k) then
              Some(m.(status := Completed, expireAt := Some(WrapAdd(h.now, h.request.expireAfter)),
                      completedAt := Some(h.now)))
            else Some(m)
  {
    assert ws[k + 1] == Handle(ws[k], cs[k].now, cs[k].request).after;
  }

  /** The last start from start `s` on. */
  function LastStart(cs: seq<Handling>, s: nat, j: nat): (l: nat)
    requires s < j <= |cs| && cs[s].request.Start?
    ensures s <= l < j && cs[l].request.Start?
  {
    if s == j - 1 || cs[j - 1].request.Start? then j - 1 else LastStart(cs, s, j - 1)
  }

  lemma {:induction false} LastStartIsLast(cs: seq<Handling>, s: nat, k: nat, j: nat)
    requires s <= k < j <= |cs| && cs[s].request.Start? && cs[k].request.Start?
    ensures k <= LastStart(cs, s, j)
    decreases j
  {
    if k < j - 1 {
      LastStartIsLast(cs, s, k, j - 1);
    }
  }

  /** The last completion accepted from request `s` on, if any. */
  ghost function LastFinish(ws: seq<Workflow>, cs: seq<Handling>, s: nat, j: nat): (f: Option<nat>)
    requires IsRun(ws, cs) && s <= j <= |cs|
    ensures f.Some? ==> s <= f.value < j && FinishedAt(ws, cs, f.value)
  {
    if s == j then None else if FinishedAt(ws, cs, j - 1) then Some(j - 1) else LastFinish(ws, cs, s, j - 1)
  }

  lemma {:induction false} LastFinishIsLast(ws: seq<Workflow>, cs: seq<Handling>, s: nat, g: nat, j: nat)
    requires IsRun(ws, cs) && s <= g < j <= |cs| && FinishedAt(ws, cs, g)
    ensures LastFinish(ws, cs, s, j).Some? && g <= LastFinish(ws, cs, s, j).value
    decreases j
  {
    if g < j - 1 {
      LastFinishIsLast(ws, cs, s, g, j - 1);
    }
  }

  /** Created at the first start, named by the last one, and completed, with time and expiry,
      by the last completion accepted, if there was any. */
  ghost predicate MetaFits(ws: seq<Workflow>, cs: seq<Handling>, s: nat, j: nat)
    requires IsRun(ws, cs) && s < j <= |cs| && cs[s].request.Start?
  {
    && ws[j].meta.Some?
    && ws[j].meta.value.createdAt == cs[s].now
    && ws[j].meta.value.name == cs[LastStart(cs, s, j)].request.name
    && match LastFinish(ws, cs, s, j)
       case Some(f) =>
         && ws[j].meta.value.status == Completed && ws[j].meta.value.completedAt == Some(cs[f].now)
         && ws[j].meta.value.expireAt == Some(WrapAdd(cs[f].now, cs[f].request.expireAfter))
       case None =>
         && ws[j].meta.value.status == Running
         && ws[j].meta.value.completedAt == None && ws[j].meta.value.expireAt == None
  }

  lemma OneMoreMetaFits(ws: seq<Workflow>, cs: seq<Handling>, s: nat, j: nat)
    requires IsRun(ws, cs) && s < j < |cs| && cs[s].request.Start? && MetaFits(ws, cs, s, j) && ws[j + 1].token.Some?
    ensures MetaFits(ws, cs, s, j + 1)
  {
    OneMetaStep(ws, cs, j);
    assert FinishedAt(ws, cs, j) ==> cs[j].request.Finish?;
    hide Handle, IsRun, FinishedAt, WrapAdd;
  }

  lemma FirstMetaFits(ws: seq<Workflow>, cs: seq<Handling>, s: nat)
    requires IsRun(ws, cs) && Creates(ws, cs, s, s + 1)
    ensures MetaFits(ws, cs, s, s + 1)
  {
    assert ws[s + 1] == Handle(ws[s], cs[s].now, cs[s].request).after;
    assert !FinishedAt(ws, cs, s) && LastFinish(ws, cs, s, s) == None;
    hide FinishedAt, IsRun, WrapAdd;
  }

  /** Metadata is told from starts and completions; in particular no start changes a
      completion's marks. */
  lemma {:induction false} MetaTellsHistory(ws: seq<Workflow>, cs: seq<Handling>, s: nat, j: nat)
    requires IsRun(ws, cs) && Creates(ws, cs, s, j)
    ensures MetaFits(ws, cs, s, j)
    decreases j
  {
    assert ws[j].token.Some?;
    if s + 1 < j {
      assert Creates(ws, cs, s, j - 1);
      hide Creates, MetaFits, SameIncarnation;
      MetaTellsHistory(ws, cs, s, j - 1);
      OneMoreMetaFits(ws, cs, s, j - 1);
    } else {
      FirstMetaFits(ws, cs, s);
    }
  }

  // ---------------------------------------------------------------- answers to a lease request

  /** The whole of a lease request, in order of precedence: a written position is answered
      from its first write; one leased with time left, with that time; and only otherwise
      does the token decide. Nothing changes but by a grant. */
  lemma LeaseIsAnswered(ws: seq<Workflow>, cs: seq<Handling>, s: nat, j: nat)
    requires IsRun(ws, cs) && Clocked(cs) && ws[0] == NewWorkflow && j < |cs| && Creates(ws, cs, s, j)
    requires cs[j].request.Lease?
    ensures var q, now, n := cs[j].request, cs[j].now, Starts(cs, s, j);
            var write, grant := FirstWrite(ws, cs, s, j, q.position), StandingGrant(ws, cs, j, q.position);
            ReplyAt(ws, cs, j) ==
            if write.Some? then
              var first := cs[write.value];
              if RowFrom(first).key != q.key then Refused(NonDeterministicCheckpoint)
              else if first.request.MakeKey? then Refused(CheckpointValueNotFound)
              else Stored(first.request.value)
            else if grant.Some? && EndOf(cs[grant.value]) > now then Remaining(EndOf(cs[grant.value]) - now)
            else if q.token < n then Refused(FencingTokenExpired)
            else if q.token == n then Granted
            else Refused(UnexpectedState)
    ensures !ReplyAt(ws, cs, j).Granted? ==> ws[j + 1] == ws[j]
  {
    var q := cs[j].request;
    TokenIsStartCount(ws, cs, s, j);
    RowsAreWrites(ws, cs, s, j, q.position);
    CacheIsStandingGrant(ws, cs, j, q.position);
    assert ws[j + 1] == Handle(ws[j], cs[j].now, q).after;
    assert 0 <= cs[j].now < I64_MAX;
    hide IsWrite, Starts, Creates, SameIncarnation, Clocked, IsRun;
    hide TimeLeft, EndOf, LeaseFrom, FirstWrite, StandingGrant;
    match StandingGrant(ws, cs, j, q.position)
    case Some(g) => TimeLeftOfGrant(cs[g], cs[j].now);
    case None =>
  }

  /** A waiter is told to wait: from a grant to its effective end, and nothing ending it at
      that position, everybody asking there, with whatever token, is answered the time left. */
  lemma WaiterIsTold(ws: seq<Workflow>, cs: seq<Handling>, i: nat, j: nat)
    requires IsRun(ws, cs) && Clocked(cs) && i < j < |cs| && cs[j].request.Lease?
    requires GrantedAt(ws, cs, i, cs[j].request.position) && cs[j].request.position !in ws[j].rows
    requires forall l :: i < l < j ==> !EndsLease(cs[l].request, cs[j].request.position)
    requires cs[j].now < EffectiveEnd(LeaseEntry(cs[i].now, cs[i].request.timeout))
    ensures ReplyAt(ws, cs, j) == Remaining(EndOf(cs[i]) - cs[j].now)
    ensures ws[j + 1] == ws[j]
  {
    var p := cs[j].request.position;
    assert cs[j - 1].now <= cs[j].now;
    LeaseStands(ws, cs, i, j, p);
    ProtectedUntilEffectiveEnd(ws[j].leases[p], cs[j].now);
    assert ws[j + 1] == Handle(ws[j], cs[j].now, cs[j].request).after;
  }

  // ---------------------------------------------------------------- answers to a checkpoint

  /** The lease last granted at the position is still cached, and its time is gone. */
  ghost predicate LeaseRanOut(ws: seq<Workflow>, cs: seq<Handling>, j: nat)
    requires IsRun(ws, cs) && j < |cs| && cs[j].request.Checkpoint?
  {
    var grant := StandingGrant(ws, cs, j, cs[j].request.position);
    grant.Some? && EndOf(cs[grant.value]) <= cs[j].now
  }

  /** The whole of a checkpoint: it takes the lease whatever becomes of it. It is refused,
      and writes nothing, exactly if a start superseded its token and the lease last granted
      there is still cached with its time gone; otherwise it is accepted, with abort exactly
      if its token is superseded. */
  lemma CheckpointIsAnswered(ws: seq<Workflow>, cs: seq<Handling>, s: nat, j: nat)
    requires IsRun(ws, cs) && Clocked(cs) && ws[0] == NewWorkflow && j < |cs| && Creates(ws, cs, s, j)
    requires cs[j].request.Checkpoint?
    ensures var q, superseded := cs[j].request, cs[j].request.token < Starts(cs, s, j);
            && ws[j + 1] == ws[j].(leases := ws[j].leases - {q.position}, rows := ws[j + 1].rows)
            && if superseded && LeaseRanOut(ws, cs, j) then
                 ReplyAt(ws, cs, j) == Refused(FencingTokenExpired) && ws[j + 1].rows == ws[j].rows
               else ReplyAt(ws, cs, j) == Acknowledged(superseded)
  {
    var q := cs[j].request;
    TokenIsStartCount(ws, cs, s, j);
    CacheIsStandingGrant(ws, cs, j, q.position);
    assert ws[j + 1] == Handle(ws[j], cs[j].now, q).after;
    assert 0 <= cs[j].now < I64_MAX;
    hide Starts, Creates, SameIncarnation, Clocked, IsRun, Upsert, TimeLeft, EndOf, LeaseFrom, StandingGrant;
    match StandingGrant(ws, cs, j, q.position)
    case Some(g) => TimeLeftOfGrant(cs[g], cs[j].now);
    case None =>
  }

  /** For a checkpoint that carries the token of start `k`: refused exactly if a start came
      after that and the last lease granted at the position is cached with its time gone. */
  lemma StaleCheckpointIsRejected(ws: seq<Workflow>, cs: seq<Handling>, s: nat, k: nat, j: nat)
    requires IsRun(ws, cs) && Clocked(cs) && ws[0] == NewWorkflow && j < |cs| && Creates(ws, cs, s, j)
    requires s <= k < j && ReplyAt(ws, cs, k).Started?
    requires cs[j].request.Checkpoint? && cs[j].request.token == ReplyAt(ws, cs, k).token
    ensures ReplyAt(ws, cs, j).Refused? <==>
              LeaseRanOut(ws, cs, j) && exists l :: k < l < j && cs[l].request.Start?
    ensures ReplyAt(ws, cs, j).Refused? ==> ws[j + 1].rows == ws[j].rows
    ensures !ReplyAt(ws, cs, j).Refused? ==>
              ReplyAt(ws, cs, j) == Acknowledged(exists l :: k < l < j && cs[l].request.Start?)
  {
    assert cs[k].request.Start?;
    CheckpointIsAnswered(ws, cs, s, j);
    SupersededByLaterStart(ws, cs, s, k, j);
    hide Handle, IsRun, LeaseRanOut, Starts, Creates, Clocked;
  }

  /** The refusal takes the lease entry along, so the same checkpoint sent once more is
      accepted, with word to abort, and stored if nothing was. */
  lemma RejectionHappensOnce(ws: seq<Workflow>, cs: seq<Handling>, s: nat, j: nat)
    requires IsRun(ws, cs) && j + 1 < |cs| && Creates(ws, cs, s, j)
    requires cs[j].request.Checkpoint? && ReplyAt(ws, cs, j).Refused? && cs[j + 1].request == cs[j].request
    ensures ReplyAt(ws, cs, j + 1) == Acknowledged(true)
    ensures var q := cs[j].request;
            && q.position in ws[j + 2].rows
            && (FirstWrite(ws, cs, s, j, q.position).None? ==>
                  ws[j + 2].rows[q.position] == Row(q.key, Some(q.value), cs[j + 1].now))
  {
    var q := cs[j].request;
    RowsAreWrites(ws, cs, s, j, q.position);
    TokenIsStartCount(ws, cs, s, j);
    assert ws[j + 1] == Handle(ws[j], cs[j].now, q).after;
    assert ws[j + 2] == Handle(ws[j + 1], cs[j + 1].now, q).after;
    hide IsWrite, Starts, Creates, SameIncarnation, IsRun;
  }

  // ---------------------------------------------------------------- answers to a key request

  /** The whole of a key request: a written position gives the key of its first write; any
      other gives the new key, and closes the position, exactly if the token is not
      superseded. Otherwise the request is refused and changes nothing. */
  lemma KeyRequestIsAnswered(ws: seq<Workflow>, cs: seq<Handling>, s: nat, j: nat)
    requires IsRun(ws, cs) && j < |cs| && Creates(ws, cs, s, j) && cs[j].request.MakeKey?
    ensures var q, write := cs[j].request, FirstWrite(ws, cs, s, j, cs[j].request.position);
            var reply := ReplyAt(ws, cs, j);
            if write.Some? then
              reply == KeyIs(RowFrom(cs[write.value]).key) && ws[j + 1] == ws[j]
            else if q.token < Starts(cs, s, j) then
              reply == Refused(FencingTokenExpired) && ws[j + 1] == ws[j]
            else
              && reply == KeyIs(q.newKey)
              && ws[j + 1] == ws[j].(rows := ws[j].rows[q.position := Row(q.newKey, None, cs[j].now)])
  {
    var q := cs[j].request;
    TokenIsStartCount(ws, cs, s, j);
    RowsAreWrites(ws, cs, s, j, q.position);
    assert ws[j + 1] == Handle(ws[j], cs[j].now, q).after;
    hide IsWrite, Starts, Creates, SameIncarnation, IsRun, FirstWrite;
  }

  /** Key generation is fenced: once a newer start has been handled, a key request with an
      older token at an unwritten position is refused and changes nothing. */
  lemma SupersededTokensGetNoKey(ws: seq<Workflow>, cs: seq<Handling>, s: nat, k: nat, j: nat)
    requires IsRun(ws, cs) && j < |cs| && Creates(ws, cs, s, j) && s <= k < j && ReplyAt(ws, cs, k).Started?
    requires cs[j].request.MakeKey? && cs[j].request.token < ReplyAt(ws, cs, k).token
    requires FirstWrite(ws, cs, s, j, cs[j].request.position).None?
    ensures ReplyAt(ws, cs, j) == Refused(FencingTokenExpired) && ws[j + 1] == ws[j]
  {
    assert cs[k].request.Start?;
    KeyRequestIsAnswered(ws, cs, s, j);
    SupersededByLaterStart(ws, cs, s, k, j);
  }

  // ---------------------------------------------------------------- completion and cleanup

  /** A completion is accepted exactly with a token issued by then, and otherwise refused,
      changing nothing; accepted, it changes nothing but the metadata. */
  lemma CompletionIsAnswered(ws: seq<Workflow>, cs: seq<Handling>, s: nat, j: nat)
    requires IsRun(ws, cs) && j < |cs| && Creates(ws, cs, s, j) && cs[j].request.Finish?
    ensures ReplyAt(ws, cs, j) ==
            if cs[j].request.token <= Starts(cs, s, j) then Finished else Refused(FencingTokenExpired)
    ensures ReplyAt(ws, cs, j).Refused? ==> ws[j + 1] == ws[j]
    ensures ws[j + 1] == ws[j].(meta := ws[j + 1].meta)
  {
    TokenIsStartCount(ws, cs, s, j);
    assert ws[j + 1] == Handle(ws[j], cs[j].now, cs[j].request).after;
  }

  /** A cleanup deletes the workflow, all but its leases, exactly if it runs on the leader
      and strictly past the expiry set by the last completion; otherwise it changes nothing. */
  lemma CleanupDeletesExpired(ws: seq<Workflow>, cs: seq<Handling>, s: nat, j: nat)
    requires IsRun(ws, cs) && j < |cs| && Creates(ws, cs, s, j) && cs[j].request.Cleanup?
    ensures var last := LastFinish(ws, cs, s, j);
            ws[j + 1] ==
            if cs[j].request.leader && last.Some?
               && WrapAdd(cs[last.value].now, cs[last.value].request.expireAfter) < cs[j].now
            then NewWorkflow.(leases := ws[j].leases) else ws[j]
  {
    MetaTellsHistory(ws, cs, s, j);
    assert ws[j + 1] == Handle(ws[j], cs[j].now, cs[j].request).after;
    hide WrapAdd, Creates, IsRun, SameIncarnation, FinishedAt;
  }

  // ---------------------------------------------------------------- no workflow

  /** Without a workflow nothing is granted or written: every request but a start and a
      release is refused for want of a token, except that whoever asks for a position still
      leased waits, and a checkpoint takes the lease even then. */
  lemma NoWorkflowIsAnswered(ws: seq<Workflow>, cs: seq<Handling>, j: nat)
    requires IsRun(ws, cs) && Clocked(cs) && ws[0] == NewWorkflow && j < |cs| && ws[j].token.None?
    ensures var q, now, reply := cs[j].request, cs[j].now, ReplyAt(ws, cs, j);
            && (q.Lease? ==>
                  var grant := StandingGrant(ws, cs, j, q.position);
                  reply == if grant.Some? && EndOf(cs[grant.value]) > now then Remaining(EndOf(cs[grant.value]) - now)
                           else Refused(FencingTokenNotFound))
            && (q.Checkpoint? || q.MakeKey? || q.Finish? ==> reply == Refused(FencingTokenNotFound))
            && (q.Checkpoint? ==> ws[j + 1] == ws[j].(leases := ws[j].leases - {q.position}))
            && (q.Lease? || q.MakeKey? || q.Finish? || q.Cleanup? ==> ws[j + 1] == ws[j])
            && (q.Start? ==> reply == Started(1))
  {
    AlwaysLinked(ws, cs, j);
    AlwaysDated(ws, cs, j);
    assert ws[j + 1] == Handle(ws[j], cs[j].now, cs[j].request).after;
    assert 0 <= cs[j].now < I64_MAX;
    hide Clocked, IsRun, TimeLeft, EndOf, LeaseFrom, StandingGrant;
    if cs[j].request.Lease? {
      CacheIsStandingGrant(ws, cs, j, cs[j].request.position);
      match StandingGrant(ws, cs, j, cs[j].request.position)
      case Some(g) => TimeLeftOfGrant(cs[g], cs[j].now);
      case None =>
    }
  }
}
