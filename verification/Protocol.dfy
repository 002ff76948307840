/** One workflow as the server sees it, and what every request does to it when it is
    handled as a single step. This is the specification the store-backed server is
    proved against and the state machine every whole-run theorem is about. */
module Protocol {
  import opened Wrappers
  import opened LeaseTime

  newtype Byte = x: int | 0 <= x < 256
  type Bytes = seq<Byte>

  datatype Status = Running | Completed

  datatype Meta = Meta(
    status: Status, name: Option<string>, createdAt: int,
    expireAt: Option<int>, completedAt: Option<int>)

  datatype Row = Row(key: string, value: Option<Bytes>, createdAt: int)

  /** The four stores, restricted to one workflow. */
  datatype Workflow = Workflow(
    meta: Option<Meta>, token: Option<int>,
    rows: imap<int, Row>, leases: imap<int, LeaseEntry>)

  datatype Request =
    | Start(name: Option<string>)
    | Lease(token: int, position: int, timeout: int, key: string)
    | Checkpoint(token: int, position: int, value: Bytes, key: string)
    | Release(position: int)
    | MakeKey(token: int, position: int, newKey: string)
    | Finish(token: int, expireAfter: int)
    | Cleanup(leader: bool)
    | Evict(position: int)

  datatype Error =
    | FencingTokenNotFound
    | FencingTokenExpired
    | NonDeterministicCheckpoint
    | CheckpointValueNotFound
    | UnexpectedState

  datatype Reply =
    | Started(token: int)
    | Stored(value: Bytes)
    | Remaining(ms: int)
    | Granted
    | Acknowledged(abort: bool)
    | Released
    | KeyIs(key: string)
    | Finished
    | Cleaned
    | Evicted
    | Refused(error: Error)

  datatype Outcome = Outcome(after: Workflow, reply: Reply)

  ghost const NewWorkflow := Workflow(None, None, imap[], imap[])

  /** The first-write-wins upsert: an existing row keeps its key and value, even an absent value. */
  ghost function Upsert(rows: imap<int, Row>, position: int, row: Row): imap<int, Row> {
    rows[position := if position in rows then rows[position].(createdAt := row.createdAt) else row]
  }

  ghost function OnStart(w: Workflow, now: int, name: Option<string>): Outcome {
    var meta := match w.meta
      case Some(m) => m.(name := name)
      case None => Meta(Running, name, now, None, None);
    var token := if w.token.Some? then w.token.value + 1 else 1;
    Outcome(w.(meta := Some(meta), token := Some(token)), Started(token))
  }

  ghost function OnLease(w: Workflow, now: int, token: int, position: int, timeout: int, key: string): Outcome {
    if position in w.rows then
      var row := w.rows[position];
      if row.key != key then Outcome(w, Refused(NonDeterministicCheckpoint))
      else if row.value.None? then Outcome(w, Refused(CheckpointValueNotFound))
      else Outcome(w, Stored(row.value.value))
    else if position in w.leases && TimeLeft(w.leases[position], now) > 0 then
      Outcome(w, Remaining(TimeLeft(w.leases[position], now)))
    else if w.token.None? then Outcome(w, Refused(FencingTokenNotFound))
    else if w.token.value > token then Outcome(w, Refused(FencingTokenExpired))
    else if w.token.value == token then
      Outcome(w.(leases := w.leases[position := LeaseEntry(now, timeout)]), Granted)
    else Outcome(w, Refused(UnexpectedState))
  }

  /** The lease entry goes first, whatever becomes of the request. */
  ghost function OnCheckpoint(w: Workflow, now: int, token: int, position: int, value: Bytes, key: string): Outcome {
    var w1 := w.(leases := w.leases - {position});
    if w.token.None? then Outcome(w1, Refused(FencingTokenNotFound))
    else
      var superseded := w.token.value > token;
      if position in w.leases && TimeLeft(w.leases[position], now) <= 0 && superseded then
        Outcome(w1, Refused(FencingTokenExpired))
      else
        Outcome(w1.(rows := Upsert(w.rows, position, Row(key, Some(value), now))), Acknowledged(superseded))
  }

  ghost function OnMakeKey(w: Workflow, now: int, token: int, position: int, newKey: string): Outcome {
    if position in w.rows then Outcome(w, KeyIs(w.rows[position].key))
    else if w.token.None? then Outcome(w, Refused(FencingTokenNotFound))
    else if w.token.value > token then Outcome(w, Refused(FencingTokenExpired))
    else Outcome(w.(rows := Upsert(w.rows, position, Row(newKey, None, now))), KeyIs(newKey))
  }

  /** An older token may still complete the workflow; only one never issued may not. */
  ghost function OnFinish(w: Workflow, now: int, token: int, expireAfter: int): Outcome {
    if w.token.None? then Outcome(w, Refused(FencingTokenNotFound))
    else if w.token.value < token then Outcome(w, Refused(FencingTokenExpired))
    else
      var meta := if w.meta.None? then None else
        Some(w.meta.value.(status := Completed, expireAt := Some(WrapAdd(now, expireAfter)), completedAt := Some(now)));
      Outcome(w.(meta := meta), Finished)
  }

  predicate Expired(meta: Meta, now: int) {
    meta.status == Completed && meta.expireAt.Some? && meta.expireAt.value < now
  }

  /** Cleanup clears the three tables of an expired workflow; the lease cache is not touched. */
  ghost function OnCleanup(w: Workflow, now: int, leader: bool): Outcome {
    if leader && w.meta.Some? && Expired(w.meta.value, now) then
      Outcome(NewWorkflow.(leases := w.leases), Cleaned)
    else Outcome(w, Cleaned)
  }

  /** The cache may drop an entry from the end of its time to live on. */
  ghost function OnEvict(w: Workflow, now: int, position: int): Outcome {
    if position in w.leases && now >= w.leases[position].createdAt + CacheLife(w.leases[position].timeout) then
      Outcome(w.(leases := w.leases - {position}), Evicted)
    else Outcome(w, Evicted)
  }

  ghost function Handle(w: Workflow, now: int, request: Request): Outcome {
    match request
    case Start(name) => OnStart(w, now, name)
    case Lease(token, position, timeout, key) => OnLease(w, now, token, position, timeout, key)
    case Checkpoint(token, position, value, key) => OnCheckpoint(w, now, token, position, value, key)
    case Release(position) => Outcome(w.(leases := w.leases - {position}), Released)
    case MakeKey(token, position, newKey) => OnMakeKey(w, now, token, position, newKey)
    case Finish(token, expireAfter) => OnFinish(w, now, token, expireAfter)
    case Cleanup(leader) => OnCleanup(w, now, leader)
    case Evict(position) => OnEvict(w, now, position)
  }

  /** While it is still good, a lease is removed by nothing but releases and checkpoints. */
  lemma GoodLeaseStays(s: Workflow, now: int, q: Request, p: int)
    requires 0 <= now < I64_MAX && p in s.leases && now < EffectiveEnd(s.leases[p])
    requires (q.Release? || q.Checkpoint?) ==> q.position != p
    ensures var s' := Handle(s, now, q).after; p in s'.leases && s'.leases[p] == s.leases[p]
  {
    ProtectedUntilEffectiveEnd(s.leases[p], now);
  }
}
