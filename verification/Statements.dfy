/** The server with every database statement and every cache operation its own step, on one
    workflow. Handlers interleave freely; a read may see any earlier prefix of the write log
    (reads are served by lagging replicas); a cache read may see anything at all. Only what
    the write log itself enforces survives here. */
module Statements {
  import opened Wrappers
  import opened LeaseTime
  import opened Protocol

  datatype Write =
    | PutRow(position: int, key: string, value: Option<Bytes>)
    | RaiseToken
    | DeleteRows
    | DeleteToken

  datatype Content = Content(key: string, value: Option<Bytes>)

  /** The row the first insert since the last delete left behind. */
  function RowOf(log: seq<Write>, p: int): Option<Content> {
    if log == [] then None
    else
      var before := RowOf(log[..|log| - 1], p);
      match log[|log| - 1]
      case PutRow(position, key, value) =>
        if position == p && before.None? then Some(Content(key, value)) else before
      case DeleteRows => None
      case _ => before
  }

  function TokenOf(log: seq<Write>): Option<int> {
    if log == [] then None
    else
      var before := TokenOf(log[..|log| - 1]);
      match log[|log| - 1]
      case RaiseToken => Some(if before.Some? then before.value + 1 else 1)
      case DeleteToken => None
      case _ => before
  }

  /** A handler between two of its statements. */
  datatype Handler =
    | StartTokens
    | LeaseRow(q: Request)
    | LeaseCache(q: Request)
    | LeaseToken(q: Request, entry: Option<LeaseEntry>)
    | LeasePut(q: Request)
    | SaveToken(q: Request)
    | SaveCache(q: Request, stored: Option<int>)
    | SaveInsert(q: Request, abort: bool)
    | KeyRow(q: Request)
    | KeyToken(q: Request)
    | KeyInsert(q: Request)
    | Done

  datatype Answer = Answer(request: Request, reply: Reply)

  datatype Db = Db(log: seq<Write>, handlers: seq<Handler>, answers: seq<Answer>)

  /** One statement: the handler's next point, what it writes, and its answer if it ends. */
  datatype Effect = Effect(next: Handler, writes: seq<Write>, answer: Option<Answer>)

  datatype Step =
    | Receive(request: Request)
    | Execute(h: nat, seen: nat, cached: Option<LeaseEntry>, now: int)
    | CleanRows
    | CleanToken

  predicate HasHandler(q: Request) {
    q.Start? || q.Lease? || q.Checkpoint? || q.MakeKey?
  }

  function FirstPoint(q: Request): Handler
    requires HasHandler(q)
  {
    match q
    case Start(_) => StartTokens
    case Lease(_, _, _, _) => LeaseRow(q)
    case Checkpoint(_, _, _, _) => SaveToken(q)
    case MakeKey(_, _, _) => KeyRow(q)
  }

  predicate WellPosed(h: Handler) {
    match h
    case LeaseRow(q) => q.Lease?
    case LeaseCache(q) => q.Lease?
    case LeaseToken(q, _) => q.Lease?
    case LeasePut(q) => q.Lease?
    case SaveToken(q) => q.Checkpoint?
    case SaveCache(q, _) => q.Checkpoint?
    case SaveInsert(q, _) => q.Checkpoint?
    case KeyRow(q) => q.MakeKey?
    case KeyToken(q) => q.MakeKey?
    case KeyInsert(q) => q.MakeKey?
    case _ => true
  }

  function End(q: Request, reply: Reply): Effect {
    Effect(Done, [], Some(Answer(q, reply)))
  }

  /** `log` is the leader's log, on which writes act; `view` the prefix a read happens to see. */
  function Run(h: Handler, log: seq<Write>, view: seq<Write>, cached: Option<LeaseEntry>, now: int): Effect
    requires WellPosed(h)
  {
    match h
    case StartTokens =>
      Effect(Done, [RaiseToken], Some(Answer(Start(None), Started(TokenOf(log + [RaiseToken]).value))))
    case LeaseRow(q) =>
      (match RowOf(view, q.position)
       case None => Effect(LeaseCache(q), [], None)
       case Some(row) =>
         if row.key != q.key then End(q, Refused(NonDeterministicCheckpoint))
         else if row.value.None? then End(q, Refused(CheckpointValueNotFound))
         else End(q, Stored(row.value.value)))
    case LeaseCache(q) => Effect(LeaseToken(q, cached), [], None)
    case LeaseToken(q, entry) =>
      var stored := TokenOf(view);
      if entry.Some? && TimeLeft(entry.value, now) > 0 then End(q, Remaining(TimeLeft(entry.value, now)))
      else if stored.None? then End(q, Refused(FencingTokenNotFound))
      else if stored.value > q.token then End(q, Refused(FencingTokenExpired))
      else if stored.value == q.token then Effect(LeasePut(q), [], None)
      else End(q, Refused(UnexpectedState))
    case LeasePut(q) => End(q, Granted)
    case SaveToken(q) => Effect(SaveCache(q, TokenOf(view)), [], None)
    case SaveCache(q, stored) =>
      if stored.None? then End(q, Refused(FencingTokenNotFound))
      else if cached.Some? && TimeLeft(cached.value, now) <= 0 && stored.value > q.token then
        End(q, Refused(FencingTokenExpired))
      else Effect(SaveInsert(q, stored.value > q.token), [], None)
    case SaveInsert(q, abort) =>
      Effect(Done, [PutRow(q.position, q.key, Some(q.value))], Some(Answer(q, Acknowledged(abort))))
    case KeyRow(q) =>
      (match RowOf(view, q.position)
       case None => Effect(KeyToken(q), [], None)
       case Some(row) => End(q, KeyIs(row.key)))
    case KeyToken(q) =>
      var stored := TokenOf(view);
      if stored.None? then End(q, Refused(FencingTokenNotFound))
      else if stored.value > q.token then End(q, Refused(FencingTokenExpired))
      else Effect(KeyInsert(q), [], None)
    case KeyInsert(q) =>
      Effect(Done, [PutRow(q.position, q.newKey, None)], Some(Answer(q, KeyIs(q.newKey))))
    case Done => Effect(Done, [], None)
  }

  predicate Enabled(d: Db, s: Step) {
    match s
    case Receive(q) => HasHandler(q)
    case Execute(h, seen, _, _) => h < |d.handlers| && seen <= |d.log| && WellPosed(d.handlers[h])
    case _ => true
  }

  function Take(d: Db, s: Step): Db
    requires Enabled(d, s)
  {
    match s
    case Receive(q) => d.(handlers := d.handlers + [FirstPoint(q)])
    case Execute(h, seen, cached, now) =>
      var e := Run(d.handlers[h], d.log, d.log[..seen], cached, now);
      Db(d.log + e.writes, d.handlers[h := e.next],
         if e.answer.Some? then d.answers + [e.answer.value] else d.answers)
    case CleanRows => d.(log := d.log + [DeleteRows])
    case CleanToken => d.(log := d.log + [DeleteToken])
  }

  ghost predicate IsTrace(ds: seq<Db>, steps: seq<Step>) {
    && |ds| == |steps| + 1 && ds[0] == Db([], [], [])
    && forall i {:trigger steps[i]} :: 0 <= i < |steps| ==>
         Enabled(ds[i], steps[i]) && ds[i + 1] == Take(ds[i], steps[i])
  }

  // ---------------------------------------------------------------- agreement

  lemma {:induction false} PrefixRowsLast(log: seq<Write>, k: nat, p: int)
    requires k <= |log| && DeleteRows !in log && RowOf(log[..k], p).Some?
    ensures RowOf(log, p) == RowOf(log[..k], p)
    decreases |log|
  {
    if k == |log| {
      assert log[..k] == log;
    } else {
      var front := log[..|log| - 1];
      assert front[..k] == log[..k];
      PrefixRowsLast(front, k, p);
    }
  }

  lemma RowsOutlastWrites(log: seq<Write>, more: seq<Write>, p: int)
    requires DeleteRows !in log + more && RowOf(log, p).Some?
    ensures RowOf(log + more, p) == RowOf(log, p)
  {
    assert (log + more)[..|log|] == log;
    PrefixRowsLast(log + more, |log|, p);
  }

  /** What an answer says of the row at its position. */
  predicate AnswerFits(log: seq<Write>, a: Answer) {
    var q := a.request;
    && (q.Lease? && a.reply.Stored? ==> RowOf(log, q.position) == Some(Content(q.key, Some(a.reply.value))))
    && (q.Lease? && a.reply == Refused(CheckpointValueNotFound) ==>
          RowOf(log, q.position) == Some(Content(q.key, None)))
    && (q.Lease? && a.reply == Refused(NonDeterministicCheckpoint) ==>
          RowOf(log, q.position).Some? && RowOf(log, q.position).value.key != q.key)
    && ((q.Checkpoint? && a.reply.Acknowledged?) || (q.MakeKey? && a.reply.KeyIs?) ==> RowOf(log, q.position).Some?)
  }

  ghost predicate AnswersFit(d: Db) {
    forall i :: 0 <= i < |d.answers| ==> AnswerFits(d.log, d.answers[i])
  }

  lemma FittingOutlastsWrites(log: seq<Write>, more: seq<Write>, a: Answer)
    requires DeleteRows !in log + more && AnswerFits(log, a)
    ensures AnswerFits(log + more, a)
  {
    if !a.request.Start? && !a.request.Finish? && !a.request.Cleanup? && RowOf(log, a.request.position).Some? {
      RowsOutlastWrites(log, more, a.request.position);
    }
  }

  /** An answer fits as it is given. */
  lemma NewAnswerFits(d: Db, h: nat, seen: nat, cached: Option<LeaseEntry>, now: int)
    requires Enabled(d, Execute(h, seen, cached, now)) && DeleteRows !in d.log
    ensures var e := Run(d.handlers[h], d.log, d.log[..seen], cached, now);
            e.answer.Some? ==> AnswerFits(d.log + e.writes, e.answer.value)
  {
    var handler := d.handlers[h];
    var e := Run(handler, d.log, d.log[..seen], cached, now);
    if (handler.LeaseRow? || handler.KeyRow?) && RowOf(d.log[..seen], handler.q.position).Some? {
      PrefixRowsLast(d.log, seen, handler.q.position);
      assert d.log + e.writes == d.log;
    }
    if handler.SaveInsert? || handler.KeyInsert? {
      assert (d.log + e.writes)[..|d.log|] == d.log;
    }
  }

  lemma TakeKeepsAnswers(d: Db, s: Step)
    requires Enabled(d, s) && AnswersFit(d) && DeleteRows !in Take(d, s).log
    ensures AnswersFit(Take(d, s))
  {
    var d' := Take(d, s);
    if s.Execute? {
      var e := Run(d.handlers[s.h], d.log, d.log[..s.seen], s.cached, s.now);
      NewAnswerFits(d, s.h, s.seen, s.cached, s.now);
      hide Run, RowOf, AnswerFits;
      forall i | 0 <= i < |d.answers|
        ensures AnswerFits(d'.log, d'.answers[i])
      {
        FittingOutlastsWrites(d.log, e.writes, d.answers[i]);
      }
    }
  }

  lemma {:induction false} AlwaysStored(ds: seq<Db>, steps: seq<Step>, j: nat)
    requires IsTrace(ds, steps) && j <= |steps| && DeleteRows !in ds[j].log
    ensures AnswersFit(ds[j])
  {
    if j > 0 {
      var s := steps[j - 1];
      LogsGrow(ds[j - 1], s);
      AlwaysStored(ds, steps, j - 1);
      TakeKeepsAnswers(ds[j - 1], s);
    }
  }

  lemma LogsGrow(d: Db, s: Step)
    requires Enabled(d, s)
    ensures d.log <= Take(d, s).log && d.answers <= Take(d, s).answers
  {
  }

  lemma {:induction false} TraceLogsGrow(ds: seq<Db>, steps: seq<Step>, i: nat, j: nat)
    requires IsTrace(ds, steps) && i <= j <= |steps|
    ensures ds[i].log <= ds[j].log
    decreases j
  {
    if i < j {
      TraceLogsGrow(ds, steps, i, j - 1);
      var s := steps[j - 1];
      LogsGrow(ds[j - 1], s);
    }
  }

  /** Agreement: under any interleaving of statements and any lag of reads, all values ever
      answered for a position are one value, and all askers used one key, as long as the log
      holds no cleanup of the workflow's rows. */
  lemma AnsweredValuesAgree(ds: seq<Db>, steps: seq<Step>, j: nat, a: nat, b: nat)
    requires IsTrace(ds, steps) && j <= |steps| && DeleteRows !in ds[j].log
    requires a < |ds[j].answers| && b < |ds[j].answers|
    requires ds[j].answers[a].request.Lease? && ds[j].answers[a].reply.Stored?
    requires ds[j].answers[b].request.Lease? && ds[j].answers[b].reply.Stored?
    requires ds[j].answers[a].request.position == ds[j].answers[b].request.position
    ensures ds[j].answers[a].reply == ds[j].answers[b].reply
    ensures ds[j].answers[a].request.key == ds[j].answers[b].request.key
    ensures RowOf(ds[j].log, ds[j].answers[a].request.position)
              == Some(Content(ds[j].answers[a].request.key, Some(ds[j].answers[a].reply.value)))
  {
    AlwaysStored(ds, steps, j);
    assert AnswerFits(ds[j].log, ds[j].answers[a]) && AnswerFits(ds[j].log, ds[j].answers[b]);
  }

  /** What was once answered of a row stays true: a value stored, a key that differs, a value
      that is missing. And whatever was acknowledged, or given a key, has a row. */
  lemma AnswersStayTrue(ds: seq<Db>, steps: seq<Step>, j: nat, a: nat)
    requires IsTrace(ds, steps) && j <= |steps| && DeleteRows !in ds[j].log && a < |ds[j].answers|
    ensures AnswerFits(ds[j].log, ds[j].answers[a])
  {
    AlwaysStored(ds, steps, j);
  }

  /** A lease request gets past the row exactly if its read shows none; otherwise it ends
      there, answered from the row for good. */
  lemma RowCheckIsExact(d: Db, h: nat, seen: nat, cached: Option<LeaseEntry>, now: int)
    requires Enabled(d, Execute(h, seen, cached, now)) && d.handlers[h].LeaseRow? && DeleteRows !in d.log
    ensures var q, d' := d.handlers[h].q, Take(d, Execute(h, seen, cached, now));
            var row := RowOf(d.log[..seen], q.position);
            if row.None? then d'.handlers[h] == LeaseCache(q) && d'.answers == d.answers
            else
              && d'.handlers[h] == Done && RowOf(d.log, q.position) == row
              && d'.answers == d.answers + [Answer(q,
                   if row.value.key != q.key then Refused(NonDeterministicCheckpoint)
                   else if row.value.value.None? then Refused(CheckpointValueNotFound)
                   else Stored(row.value.value.value))]
  {
    if RowOf(d.log[..seen], d.handlers[h].q.position).Some? {
      PrefixRowsLast(d.log, seen, d.handlers[h].q.position);
    }
  }

  // ---------------------------------------------------------------- tokens

  lemma {:induction false} WritesKeepToken(log: seq<Write>, more: seq<Write>)
    requires DeleteToken !in more && RaiseToken !in more
    ensures TokenOf(log + more) == TokenOf(log)
    decreases |more|
  {
    if more == [] {
      assert log + more == log;
    } else {
      var front := more[..|more| - 1];
      WritesKeepToken(log, front);
      assert (log + more)[..|log + more| - 1] == log + front;
    }
  }

  /** Tokens answered rise in the order of the answers and never exceed the stored one. */
  ghost predicate TokensRise(d: Db) {
    && (forall i :: 0 <= i < |d.answers| && d.answers[i].reply.Started? ==>
          TokenOf(d.log).Some? && d.answers[i].reply.token <= TokenOf(d.log).value)
    && (forall i, j :: 0 <= i < j < |d.answers| && d.answers[i].reply.Started? && d.answers[j].reply.Started? ==>
          d.answers[i].reply.token < d.answers[j].reply.token)
  }

  lemma TakeKeepsTokens(d: Db, s: Step)
    requires Enabled(d, s) && TokensRise(d) && DeleteToken !in Take(d, s).log
    ensures TokensRise(Take(d, s))
  {
    var d' := Take(d, s);
    match s
    case Receive(_) =>
    case CleanToken => LastIsIn(d.log, DeleteToken);
    case CleanRows => WritesKeepToken(d.log, [DeleteRows]);
    case Execute(h, seen, cached, now) =>
      var e := Run(d.handlers[h], d.log, d.log[..seen], cached, now);
      if d.handlers[h].StartTokens? {
        assert (d.log + [RaiseToken])[..|d.log|] == d.log;
      } else {
        OnlyStartsRaise(d.handlers[h], d.log, d.log[..seen], cached, now);
        WritesKeepToken(d.log, e.writes);
      }
  }

  lemma LastIsIn(log: seq<Write>, last: Write)
    ensures last in log + [last]
  {
  }

  lemma OnlyStartsRaise(h: Handler, log: seq<Write>, view: seq<Write>, cached: Option<LeaseEntry>, now: int)
    requires WellPosed(h) && !h.StartTokens?
    ensures var e := Run(h, log, view, cached, now);
            && DeleteToken !in e.writes && RaiseToken !in e.writes
            && (e.answer.Some? ==> !e.answer.value.reply.Started?)
  {
  }

  lemma {:induction false} AnsweredTokensRise(ds: seq<Db>, steps: seq<Step>, j: nat)
    requires IsTrace(ds, steps) && j <= |steps| && DeleteToken !in ds[j].log
    ensures TokensRise(ds[j])
  {
    if j > 0 {
      var s := steps[j - 1];
      LogsGrow(ds[j - 1], s);
      AnsweredTokensRise(ds, steps, j - 1);
      TakeKeepsTokens(ds[j - 1], s);
    }
  }

  // ---------------------------------------------------------------- fencing

  function Raises(log: seq<Write>): nat {
    if log == [] then 0 else Raises(log[..|log| - 1]) + (if log[|log| - 1].RaiseToken? then 1 else 0)
  }

  lemma {:induction false} TokenCountsRaises(log: seq<Write>)
    requires DeleteToken !in log
    ensures TokenOf(log) == if Raises(log) == 0 then None else Some(Raises(log))
  {
    if log != [] {
      TokenCountsRaises(log[..|log| - 1]);
    }
  }

  lemma {:induction false} RaisesGrow(log: seq<Write>, i: nat, j: nat)
    requires i <= j <= |log|
    ensures Raises(log[..i]) <= Raises(log[..j])
    decreases j
  {
    if i < j {
      RaisesGrow(log, i, j - 1);
      assert log[..j][..j - 1] == log[..j - 1];
    }
  }

  /** The token check, exactly: without a cleanup of the token, a lease request passes it if
      and only if no cached entry has time left and the prefix of the log its read happens
      to see holds as many starts as the request's token says. */
  lemma TokenCheckIsExact(d: Db, h: nat, seen: nat, cached: Option<LeaseEntry>, now: int)
    requires Enabled(d, Execute(h, seen, cached, now)) && d.handlers[h].LeaseToken? && DeleteToken !in d.log
    ensures var q, entry := d.handlers[h].q, d.handlers[h].entry;
            var next := Take(d, Execute(h, seen, cached, now)).handlers[h];
            && (next == Done || next == LeasePut(q))
            && (next == LeasePut(q) <==>
                  && !(entry.Some? && TimeLeft(entry.value, now) > 0)
                  && q.token > 0 && Raises(d.log[..seen]) == q.token)
  {
    TokenCountsRaises(d.log[..seen]);
  }

  /** And whoever does not pass it is answered: the time left, or else what the token lacks. */
  lemma TokenRefusalIsExact(d: Db, h: nat, seen: nat, cached: Option<LeaseEntry>, now: int)
    requires Enabled(d, Execute(h, seen, cached, now)) && d.handlers[h].LeaseToken? && DeleteToken !in d.log
    requires Take(d, Execute(h, seen, cached, now)).handlers[h] == Done
    ensures var q, entry, starts := d.handlers[h].q, d.handlers[h].entry, Raises(d.log[..seen]);
            Take(d, Execute(h, seen, cached, now)).answers == d.answers + [Answer(q,
              if entry.Some? && TimeLeft(entry.value, now) > 0 then Remaining(TimeLeft(entry.value, now))
              else if starts == 0 then Refused(FencingTokenNotFound)
              else if starts > q.token then Refused(FencingTokenExpired)
              else Refused(UnexpectedState))]
  {
    TokenCountsRaises(d.log[..seen]);
  }

  /** A handler about to put a lease has passed the token check, in an earlier step. */
  lemma {:induction false} TokenWasRead(ds: seq<Db>, steps: seq<Step>, j: nat, h: nat) returns (i: nat)
    requires IsTrace(ds, steps) && j <= |steps| && h < |ds[j].handlers| && ds[j].handlers[h].LeasePut?
    ensures i < j && steps[i].Execute? && steps[i].h == h && h < |ds[i].handlers|
    ensures ds[i].handlers[h].LeaseToken? && ds[i].handlers[h].q == ds[j].handlers[h].q
    ensures ds[i + 1].handlers[h] == ds[j].handlers[h]
  {
    i := j - 1;
    var s := steps[i];
    if h < |ds[i].handlers| && ds[i].handlers[h].LeasePut? {
      i := TokenWasRead(ds, steps, j - 1, h);
    }
  }

  ghost predicate IsGrant(ds: seq<Db>, steps: seq<Step>, j: nat)
    requires IsTrace(ds, steps) && j < |steps|
  {
    steps[j].Execute? && ds[j].handlers[steps[j].h].LeasePut?
  }

  ghost predicate IsStart(ds: seq<Db>, steps: seq<Step>, m: nat)
    requires IsTrace(ds, steps) && m < |steps|
  {
    steps[m].Execute? && ds[m].handlers[steps[m].h].StartTokens?
  }

  /** What fencing amounts to here. Take any granted lease (answered in step `j`) and any
      start (answered in step `m`). The granted token is older than the started one if and
      only if the read behind the grant (step `i`) did not cover the start's write. Even if
      that read saw the whole log, it is so if and only if it came before the start: nothing
      that happens between the token check and the put is noticed. */
  lemma GrantOverlooksUnseenStarts(ds: seq<Db>, steps: seq<Step>, j: nat, m: nat) returns (i: nat)
    requires IsTrace(ds, steps) && j < |steps| && m < |steps| && DeleteToken !in ds[|steps|].log
    requires IsGrant(ds, steps, j) && IsStart(ds, steps, m)
    ensures i < j && steps[i].Execute? && steps[i].h == steps[j].h && ds[i].handlers[steps[i].h].LeaseToken?
    ensures var token := ds[j].handlers[steps[j].h].q.token;
            var granted, started := ds[j + 1].answers, ds[m + 1].answers;
            && |granted| > 0 && granted[|granted| - 1] == Answer(ds[j].handlers[steps[j].h].q, Granted)
            && |started| > 0 && started[|started| - 1].reply.Started?
            && (token < started[|started| - 1].reply.token <==> steps[i].seen <= |ds[m].log|)
            && (steps[i].seen == |ds[i].log| ==> (token < started[|started| - 1].reply.token <==> i < m))
  {
    i := TokenWasRead(ds, steps, j, steps[j].h);
    var all := ds[|steps|].log;
    TraceLogsGrow(ds, steps, i, |steps|);
    TraceLogsGrow(ds, steps, m, |steps|);
    TraceLogsGrow(ds, steps, m + 1, |steps|);
    TokenCheckIsExact(ds[i], steps[i].h, steps[i].seen, steps[i].cached, steps[i].now);
    var before, seen := |ds[m].log|, steps[i].seen;
    assert ds[i].log[..seen] == all[..seen] && ds[m].log == all[..before];
    StartedToken(ds[m], steps[m], all);
    if seen <= before {
      RaisesGrow(all, seen, before);
    } else {
      RaisesGrow(all, before + 1, seen);
    }
    if i < m {
      TraceLogsGrow(ds, steps, i, m);
    } else {
      assert i != m;
      TraceLogsGrow(ds, steps, m + 1, i);
    }
  }

  /** A start answers the number of starts so far, itself included. */
  lemma StartedToken(d: Db, s: Step, all: seq<Write>)
    requires Enabled(d, s) && s.Execute? && d.handlers[s.h].StartTokens?
    requires Take(d, s).log <= all && DeleteToken !in all
    ensures var answers := Take(d, s).answers;
            && |Take(d, s).log| == |d.log| + 1
            && |answers| > 0 && answers[|answers| - 1].reply == Started(Raises(all[..|d.log|]) + 1)
            && Raises(all[..|d.log| + 1]) == Raises(all[..|d.log|]) + 1
  {
    var log := d.log + [RaiseToken];
    assert Take(d, s).log == log && all[..|d.log| + 1] == log && all[..|d.log|] == d.log;
    assert log[..|log| - 1] == d.log;
    TokenCountsRaises(d.log);
    TokenCountsRaises(log);
  }

  // ---------------------------------------------------------------- checkpoints

  /** The rejection check, exactly: a checkpoint is refused as stale if and only if the cache
      read found a lease with its time gone and the token read before showed a newer token;
      without any token it is refused for that; and otherwise it goes on to be inserted, with
      abort exactly for a newer token. */
  lemma SaveCheckIsExact(d: Db, h: nat, seen: nat, cached: Option<LeaseEntry>, now: int)
    requires Enabled(d, Execute(h, seen, cached, now)) && d.handlers[h].SaveCache?
    ensures var q, stored, d' := d.handlers[h].q, d.handlers[h].stored, Take(d, Execute(h, seen, cached, now));
            && d'.log == d.log
            && if stored.None? then
                 d'.handlers[h] == Done && d'.answers == d.answers + [Answer(q, Refused(FencingTokenNotFound))]
               else if stored.value > q.token && cached.Some? && TimeLeft(cached.value, now) <= 0 then
                 d'.handlers[h] == Done && d'.answers == d.answers + [Answer(q, Refused(FencingTokenExpired))]
               else d'.handlers[h] == SaveInsert(q, stored.value > q.token) && d'.answers == d.answers
  {
  }

  /** A handler about to look at the cache, or to insert, has read the token before. */
  lemma {:induction false} TokenWasReadToSave(ds: seq<Db>, steps: seq<Step>, j: nat, h: nat) returns (i: nat)
    requires IsTrace(ds, steps) && j <= |steps| && h < |ds[j].handlers|
    requires ds[j].handlers[h].SaveCache? || ds[j].handlers[h].SaveInsert?
    ensures i < j && steps[i].Execute? && steps[i].h == h && h < |ds[i].handlers|
    ensures ds[i].handlers[h] == SaveToken(ds[j].handlers[h].q) && steps[i].seen <= |ds[i].log|
    ensures var stored := TokenOf(ds[i].log[..steps[i].seen]);
            if ds[j].handlers[h].SaveCache? then ds[j].handlers[h].stored == stored
            else stored.Some? && ds[j].handlers[h].abort == (stored.value > ds[j].handlers[h].q.token)
  {
    i := j - 1;
    var s := steps[i];
    if h < |ds[i].handlers| && (ds[i].handlers[h].SaveCache? || ds[i].handlers[h].SaveInsert?) {
      i := TokenWasReadToSave(ds, steps, j - 1, h);
    }
  }

  /** What abort amounts to here. A checkpoint acknowledged in step `j` is told to abort if
      and only if the token read behind it (step `i`) saw more starts than its token says;
      that is, if and only if that read covered the write of the start that came right after
      the one that issued its token. */
  lemma AbortOverlooksUnseenStarts(ds: seq<Db>, steps: seq<Step>, j: nat, m: nat) returns (i: nat)
    requires IsTrace(ds, steps) && j < |steps| && m < |steps| && DeleteToken !in ds[|steps|].log
    requires steps[j].Execute? && ds[j].handlers[steps[j].h].SaveInsert? && IsStart(ds, steps, m)
    ensures i < j && steps[i].Execute? && steps[i].h == steps[j].h && ds[i].handlers[steps[i].h].SaveToken?
    ensures var q, abort := ds[j].handlers[steps[j].h].q, ds[j].handlers[steps[j].h].abort;
            var saved, started := ds[j + 1].answers, ds[m + 1].answers;
            && |saved| > 0 && saved[|saved| - 1] == Answer(q, Acknowledged(abort))
            && |started| > 0 && started[|started| - 1].reply.Started?
            && (abort <==> Raises(ds[i].log[..steps[i].seen]) > q.token)
            && (started[|started| - 1].reply.token == q.token + 1 ==> (abort <==> steps[i].seen > |ds[m].log|))
  {
    i := TokenWasReadToSave(ds, steps, j, steps[j].h);
    var all := ds[|steps|].log;
    TraceLogsGrow(ds, steps, i, |steps|);
    TraceLogsGrow(ds, steps, m, |steps|);
    TraceLogsGrow(ds, steps, m + 1, |steps|);
    var before, seen := |ds[m].log|, steps[i].seen;
    assert ds[i].log[..seen] == all[..seen] && ds[m].log == all[..before];
    TokenCountsRaises(all[..seen]);
    StartedToken(ds[m], steps[m], all);
    if seen <= before {
      RaisesGrow(all, seen, before);
    } else {
      RaisesGrow(all, before + 1, seen);
    }
  }

  /** A checkpoint acknowledged in step `i` is what the row holds ever after if and only if
      there was no row when it was inserted, or one that held the same. */
  lemma AcknowledgedIsStored(ds: seq<Db>, steps: seq<Step>, i: nat, j: nat)
    requires IsTrace(ds, steps) && i < j <= |steps| && DeleteRows !in ds[j].log
    requires steps[i].Execute? && ds[i].handlers[steps[i].h].SaveInsert?
    ensures var q := ds[i].handlers[steps[i].h].q;
            var there, now := RowOf(ds[i].log, q.position), RowOf(ds[j].log, q.position);
            && now.Some? && (there.Some? ==> now == there)
            && (now == Some(Content(q.key, Some(q.value))) <==>
                  there.None? || there == Some(Content(q.key, Some(q.value))))
  {
    var q := ds[i].handlers[steps[i].h].q;
    var log := ds[i + 1].log;
    TraceLogsGrow(ds, steps, i + 1, j);
    assert log[..|log| - 1] == ds[i].log;
    RowsOutlastWrites(log, ds[j].log[|log|..], q.position);
    assert log + ds[j].log[|log|..] == ds[j].log;
  }

  // ---------------------------------------------------------------- durable keys

  /** A handler that answers a durable key in this step. */
  predicate AnswersKey(d: Db, s: Step)
    requires Enabled(d, s)
  {
    && s.Execute?
    && (d.handlers[s.h].KeyInsert? ||
        (d.handlers[s.h].KeyRow? && RowOf(d.log[..s.seen], d.handlers[s.h].q.position).Some?))
  }

  /** Durable keys, exactly: as long as no cleanup deletes the rows, a position for which a
      key was answered has a row; and the key answered is the row's key unless, when it was
      inserted, a row with another key had come between. */
  lemma AnsweredKeyIsStored(ds: seq<Db>, steps: seq<Step>, i: nat, j: nat)
    requires IsTrace(ds, steps) && i < j <= |steps| && DeleteRows !in ds[j].log
    requires Enabled(ds[i], steps[i]) && AnswersKey(ds[i], steps[i])
    ensures var h := ds[i].handlers[steps[i].h];
            var there, now := RowOf(ds[i].log, h.q.position), RowOf(ds[j].log, h.q.position);
            var answers := ds[i + 1].answers;
            && |answers| > 0 && answers[|answers| - 1].request == h.q && answers[|answers| - 1].reply.KeyIs?
            && now.Some?
            && (answers[|answers| - 1].reply.key == now.value.key <==>
                  h.KeyRow? || there.None? || there.value.key == h.q.newKey)
            && (h.KeyInsert? && there.None? ==> now == Some(Content(h.q.newKey, None)))
  {
    var d, s := ds[i], steps[i];
    var p := d.handlers[s.h].q.position;
    TraceLogsGrow(ds, steps, i, j);
    TraceLogsGrow(ds, steps, i + 1, j);
    if d.handlers[s.h].KeyRow? {
      PrefixRowsLast(d.log, s.seen, p);
      RowsOutlastWrites(d.log, ds[j].log[|d.log|..], p);
      assert d.log + ds[j].log[|d.log|..] == ds[j].log;
    } else {
      var log := ds[i + 1].log;
      assert log[..|log| - 1] == d.log;
      RowsOutlastWrites(log, ds[j].log[|log|..], p);
      assert log + ds[j].log[|log|..] == ds[j].log;
    }
  }

  /** The token check of a key request, exactly: without a cleanup of the token it is passed
      if and only if the read shows a start, and no more starts than the token says. */
  lemma KeyCheckIsExact(d: Db, h: nat, seen: nat, cached: Option<LeaseEntry>, now: int)
    requires Enabled(d, Execute(h, seen, cached, now)) && d.handlers[h].KeyToken? && DeleteToken !in d.log
    ensures var q, d' := d.handlers[h].q, Take(d, Execute(h, seen, cached, now));
            var starts := Raises(d.log[..seen]);
            && d'.log == d.log
            && if 0 < starts <= q.token then d'.handlers[h] == KeyInsert(q) && d'.answers == d.answers
               else
                 && d'.handlers[h] == Done
                 && d'.answers == d.answers + [Answer(q,
                      Refused(if starts == 0 then FencingTokenNotFound else FencingTokenExpired))]
  {
    TokenCountsRaises(d.log[..seen]);
  }

  // ---------------------------------------------------------------- concrete traces

  /** A trace in which every read sees the whole log. */
  ghost predicate IsFreshTrace(ds: seq<Db>, steps: seq<Step>) {
    && IsTrace(ds, steps)
    && forall i {:trigger steps[i]} :: 0 <= i < |steps| && steps[i].Execute? ==> steps[i].seen == |ds[i].log|
  }

  lemma ExtendTrace(ds: seq<Db>, steps: seq<Step>, s: Step) returns (ds': seq<Db>)
    requires IsTrace(ds, steps) && Enabled(ds[|steps|], s)
    ensures |ds'| == |steps| + 2 && IsTrace(ds', steps + [s])
    ensures ds'[|steps| + 1] == Take(ds[|steps|], s)
    ensures IsFreshTrace(ds, steps) && (s.Execute? ==> s.seen == |ds[|steps|].log|) ==> IsFreshTrace(ds', steps + [s])
  {
    ds' := ds + [Take(ds[|steps|], s)];
    hide Take, Enabled;
    var more := steps + [s];
    forall i {:trigger more[i]} | 0 <= i < |more|
      ensures Enabled(ds'[i], more[i]) && ds'[i + 1] == Take(ds'[i], more[i])
    {
      if i < |steps| {
        assert more[i] == steps[i];
      }
    }
  }

  const STALE := Lease(1, 0, 30000, "k")

  /** Fencing fails when reads lag: here token 2 has been answered, and yet the request with
      token 1, reading the token from a replica one write behind, is granted a lease. */
  lemma LaggingReadDefeatsFencing() returns (ds: seq<Db>, steps: seq<Step>)
    ensures IsTrace(ds, steps) && DeleteToken !in ds[|steps|].log
    ensures ds[|steps|].answers ==
            [Answer(Start(None), Started(1)), Answer(Start(None), Started(2)), Answer(STALE, Granted)]
  {
    ds, steps := OneStart();
    hide IsTrace;
    ds, steps := AnotherStart(ds, steps);
    var s1, s2, s3, s4 := Receive(STALE), Execute(2, 0, None, 0), Execute(2, 0, None, 0), Execute(2, 1, None, 0);
    var d := ds[|steps|];
    assert d.log == [RaiseToken, RaiseToken] && d.log[..0] == [] && d.log[..1] == [RaiseToken];
    assert [RaiseToken][..0] == [];
    var d4 := Take(Take(Take(Take(d, s1), s2), s3), s4);
    assert d4.handlers[2] == LeasePut(STALE);
    ds := ExtendTrace(ds, steps, s1);
    ds := ExtendTrace(ds, steps + [s1], s2);
    ds := ExtendTrace(ds, steps + [s1] + [s2], s3);
    ds := ExtendTrace(ds, steps + [s1] + [s2] + [s3], s4);
    ds := ExtendTrace(ds, steps + [s1] + [s2] + [s3] + [s4], s2);
    steps := steps + [s1] + [s2] + [s3] + [s4] + [s2];
  }

  /** And it fails when no read lags: the request with token 1 passes the token check, token
      2 is answered, and only then is the lease put. */
  lemma FreshReadsStillDefeatFencing() returns (ds: seq<Db>, steps: seq<Step>)
    ensures IsFreshTrace(ds, steps) && DeleteToken !in ds[|steps|].log
    ensures ds[|steps|].answers ==
            [Answer(Start(None), Started(1)), Answer(Start(None), Started(2)), Answer(STALE, Granted)]
  {
    ds, steps := OneStart();
    hide IsTrace, IsFreshTrace;
    var s1, s2 := Receive(STALE), Execute(1, 1, None, 0);
    var d := ds[|steps|];
    assert d.log[..1] == [RaiseToken] && [RaiseToken][..0] == [];
    assert RowOf([RaiseToken], 0) == None && TokenOf([RaiseToken]) == Some(1);
    var d4 := Take(Take(Take(Take(d, s1), s2), s2), s2);
    assert d4.handlers[1] == LeasePut(STALE);
    ds := ExtendTrace(ds, steps, s1);
    ds := ExtendTrace(ds, steps + [s1], s2);
    ds := ExtendTrace(ds, steps + [s1] + [s2], s2);
    ds := ExtendTrace(ds, steps + [s1] + [s2] + [s2], s2);
    ds, steps := AnotherStart(ds, steps + [s1] + [s2] + [s2] + [s2]);
    var put := Execute(1, 2, None, 0);
    ds := ExtendTrace(ds, steps, put);
    steps := steps + [put];
  }

  lemma OneStart() returns (ds: seq<Db>, steps: seq<Step>)
    ensures |ds| == |steps| + 1 && IsFreshTrace(ds, steps)
    ensures ds[|steps|] == Db([RaiseToken], [Done], [Answer(Start(None), Started(1))])
  {
    var s1, s2 := Receive(Start(None)), Execute(0, 0, None, 0);
    ds := [Db([], [], [])];
    assert [RaiseToken][..0] == [];
    ds := ExtendTrace(ds, [], s1);
    ds := ExtendTrace(ds, [] + [s1], s2);
    steps := [] + [s1] + [s2];
  }

  lemma AnotherStart(ds: seq<Db>, steps: seq<Step>) returns (ds': seq<Db>, steps': seq<Step>)
    requires IsTrace(ds, steps) && ds[|steps|].log == [RaiseToken]
    ensures |ds'| == |steps'| + 1 && IsTrace(ds', steps') && (IsFreshTrace(ds, steps) ==> IsFreshTrace(ds', steps'))
    ensures ds'[|steps'|] == Db([RaiseToken, RaiseToken], ds[|steps|].handlers + [Done],
                                ds[|steps|].answers + [Answer(Start(None), Started(2))])
  {
    var s1, s2 := Receive(Start(None)), Execute(|ds[|steps|].handlers|, 1, None, 0);
    hide IsTrace, IsFreshTrace;
    assert [RaiseToken][..0] == [] && [RaiseToken, RaiseToken][..1] == [RaiseToken];
    ds' := ExtendTrace(ds, steps, s1);
    ds' := ExtendTrace(ds', steps + [s1], s2);
    steps' := steps + [s1] + [s2];
    assert [RaiseToken] + [RaiseToken] == [RaiseToken, RaiseToken];
  }

  const ASK := MakeKey(1, 0, "a")
  const ASK2 := MakeKey(1, 0, "b")

  /** Two key requests interleave, no read lagging: both find no row, both insert, and two
      keys are answered, of which the second is never stored. */
  lemma TwoKeysForOnePosition() returns (ds: seq<Db>, steps: seq<Step>)
    ensures IsFreshTrace(ds, steps) && DeleteRows !in ds[|steps|].log
    ensures ds[|steps|].answers == [Answer(Start(None), Started(1)), Answer(ASK, KeyIs("a")), Answer(ASK2, KeyIs("b"))]
    ensures RowOf(ds[|steps|].log, 0) == Some(Content("a", None))
  {
    ds, steps := OneStart();
    hide IsTrace, IsFreshTrace;
    ds, steps := BothFindNoRow(ds, steps);
    var s1, s2 := Execute(1, 1, None, 0), Execute(2, 2, None, 0);
    var log1 := [RaiseToken, PutRow(0, "a", None)];
    var log2 := [RaiseToken, PutRow(0, "a", None), PutRow(0, "b", None)];
    assert log2[..2] == log1 && log1[..1] == [RaiseToken] && [RaiseToken][..0] == [];
    ds := ExtendTrace(ds, steps, s1);
    assert ds[|steps| + 1].log == log1;
    ds := ExtendTrace(ds, steps + [s1], s2);
    steps := steps + [s1] + [s2];
    assert ds[|steps|].log == log2;
  }

  lemma BothFindNoRow(ds: seq<Db>, steps: seq<Step>) returns (ds': seq<Db>, steps': seq<Step>)
    requires IsFreshTrace(ds, steps) && ds[|steps|] == Db([RaiseToken], [Done], [Answer(Start(None), Started(1))])
    ensures IsFreshTrace(ds', steps') && IsTrace(ds', steps')
    ensures ds'[|steps'|] == ds[|steps|].(handlers := [Done, KeyInsert(ASK), KeyInsert(ASK2)])
  {
    var s1, s2, s3, s4 := Receive(ASK), Receive(ASK2), Execute(1, 1, None, 0), Execute(2, 1, None, 0);
    hide IsTrace, IsFreshTrace;
    assert [RaiseToken][..1] == [RaiseToken] && [RaiseToken][..0] == [];
    assert RowOf([RaiseToken], 0) == None && TokenOf([RaiseToken]) == Some(1);
    ds' := ExtendTrace(ds, steps, s1);
    ds' := ExtendTrace(ds', steps + [s1], s2);
    assert ds'[|steps| + 2].handlers == [Done, KeyRow(ASK), KeyRow(ASK2)];
    ds' := ExtendTrace(ds', steps + [s1] + [s2], s3);
    ds' := ExtendTrace(ds', steps + [s1] + [s2] + [s3], s4);
    assert ds'[|steps| + 4].handlers == [Done, KeyToken(ASK), KeyToken(ASK2)];
    ds' := ExtendTrace(ds', steps + [s1] + [s2] + [s3] + [s4], s3);
    ds' := ExtendTrace(ds', steps + [s1] + [s2] + [s3] + [s4] + [s3], s4);
    steps' := steps + [s1] + [s2] + [s3] + [s4] + [s3] + [s4];
    assert ds'[|steps'|].handlers == [Done, KeyInsert(ASK), KeyInsert(ASK2)];
  }
}
