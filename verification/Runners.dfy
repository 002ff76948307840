/** The client: one runner executing tasks one after the other. `React` is its state
    machine, one transition per awaited event; `Runner.Execute` is the program with its
    three loops, proved to be exactly that machine. */
module Runners {
  import opened Wrappers
  import opened Protocol

  /** Options as the caller gives them; absent and zero both mean the default. */
  datatype RollbackOptions = RollbackOptions(retryCount: Option<int>)
  datatype Task = Task(key: string, leaseTimeout: Option<int>, onAbort: Option<RollbackOptions>)

  function OrDefault(given: Option<int>, default: int): int {
    if given.Some? && given.value != 0 then given.value else default
  }

  function Timeout(task: Task): int {
    OrDefault(task.leaseTimeout, 30000)
  }

  function RetryLimit(options: RollbackOptions): int {
    OrDefault(options.retryCount, 3)
  }

  datatype Failure = CallFailed | Rejected(error: Error) | TaskFailed | PersistedButSuperseded | RolledBack
  datatype Ending = Returned(value: Bytes) | Threw(reason: Failure)

  /** Where a runner is suspended; idle, it remembers how its last task ended. A deadline is
      the client's own idea of the end of its lease. */
  datatype Phase =
    | Idle(ending: Option<Ending>)
    | Leasing(task: Task, retried: bool)
    | Executing(task: Task, deadline: int)
    | Releasing(task: Task, deadline: int)
    | Saving(task: Task, value: Bytes, deadline: int)
    | RollingBack(left: int)
    | Crashed

  datatype State = State(token: int, position: int, phase: Phase, results: seq<(string, Bytes)>)

  datatype Stimulus =
    | Answer(reply: Reply)
    | NoAnswer
    | TaskReturned(value: Bytes)
    | TaskRejected
    | TaskThrewAtOnce
    | RollbackReturned
    | RollbackThrew

  datatype Event = Event(now: int, what: Stimulus)

  function Begin(r: State, task: Task): State {
    r.(phase := Leasing(task, false))
  }

  function Fail(r: State, reason: Failure): State {
    r.(phase := Idle(Some(Threw(reason))))
  }

  /** A finished task: its result is handed to the caller. */
  function Advance(r: State, key: string, value: Bytes): State {
    r.(position := r.position + 1, phase := Idle(Some(Returned(value))), results := r.results + [(key, value)])
  }

  /** The deadline passed without an acknowledgement. Without a rollback function the
      runner goes on as if its result were stored. */
  function GiveUp(r: State, task: Task, value: Bytes): State {
    match task.onAbort
    case None => Advance(r, task.key, value)
    case Some(options) =>
      if RetryLimit(options) > 0 then r.(phase := RollingBack(RetryLimit(options))) else Fail(r, RolledBack)
  }

  function OnLeaseAnswer(r: State, task: Task, retried: bool, now: int, reply: Reply): State {
    match reply
    case Stored(value) => Advance(r, task.key, value)
    case Refused(error) =>
      if error == FencingTokenNotFound && r.position == 0 && !retried then r.(phase := Leasing(task, true))
      else Fail(r, Rejected(error))
    case _ =>
      // A remaining time of zero is falsy and would be taken for a grant.
      if reply.Remaining? && reply.ms != 0 then r
      else r.(phase := Executing(task, now + Timeout(task)))
  }

  /** Saving goes on as long as the deadline has not passed when an attempt would begin. */
  function TrySave(r: State, task: Task, value: Bytes, deadline: int, now: int): State {
    if now < deadline then r.(phase := Saving(task, value, deadline)) else GiveUp(r, task, value)
  }

  predicate Awaits(phase: Phase, what: Stimulus) {
    match phase
    case Leasing(_, _) => what == NoAnswer || (what.Answer? && IsLeaseReply(what.reply))
    case Executing(_, _) => what.TaskReturned? || what.TaskRejected? || what.TaskThrewAtOnce?
    case Releasing(_, _) => what == NoAnswer || (what.Answer? && what.reply == Released)
    case Saving(_, _, _) => what == NoAnswer || (what.Answer? && (what.reply.Acknowledged? || what.reply.Refused?))
    case RollingBack(_) => what.RollbackReturned? || what.RollbackThrew?
    case _ => false
  }

  predicate IsLeaseReply(reply: Reply) {
    reply.Stored? || reply.Remaining? || reply.Granted? || reply.Refused?
  }

  function React(r: State, e: Event): State
    requires Awaits(r.phase, e.what)
  {
    match r.phase
    case Leasing(task, retried) =>
      if e.what.Answer? then OnLeaseAnswer(r, task, retried, e.now, e.what.reply) else Fail(r, CallFailed)
    case Executing(task, deadline) =>
      (match e.what
       case TaskReturned(value) => TrySave(r, task, value, deadline, e.now)
       case TaskRejected => r.(phase := Releasing(task, deadline))
       case _ => Fail(r, TaskFailed))        // thrown before any promise: nothing is released
    case Releasing(_, _) => Fail(r, if e.what.Answer? then TaskFailed else CallFailed)
    case Saving(task, value, deadline) =>
      if e.what.Answer? && e.what.reply.Acknowledged? then
        if e.what.reply.abort then Fail(r, PersistedButSuperseded) else Advance(r, task.key, value)
      else TrySave(r, task, value, deadline, e.now)
    case RollingBack(left) =>
      if e.what.RollbackReturned? || left <= 1 then Fail(r, RolledBack) else r.(phase := RollingBack(left - 1))
  }

  /** The script is a possible course of events: every event is one the runner awaits. */
  ghost predicate Fits(r: State, script: seq<Event>)
    decreases |script|, 0
  {
    script == [] ||
    (var n := |script| - 1;
     Fits(r, script[..n]) && Awaits(Feed(r, script[..n]).phase, script[n].what))
  }

  ghost function Feed(r: State, script: seq<Event>): State
    requires Fits(r, script)
    decreases |script|, 1
  {
    if script == [] then r
    else var n := |script| - 1; React(Feed(r, script[..n]), script[n])
  }

  lemma {:induction false} PrefixFits(r: State, script: seq<Event>, i: nat)
    requires Fits(r, script) && i <= |script|
    ensures Fits(r, script[..i])
    decreases |script|
  {
    if i == |script| {
      assert script[..i] == script;
    } else {
      PrefixFits(r, script[..|script| - 1], i);
      assert script[..|script| - 1][..i] == script[..i];
    }
  }

  /** What the i-th event does. */
  lemma OneMore(r: State, script: seq<Event>, i: nat)
    requires Fits(r, script) && i < |script|
    ensures Fits(r, script[..i]) && Fits(r, script[..i + 1])
    ensures Awaits(Feed(r, script[..i]).phase, script[i].what)
    ensures Feed(r, script[..i + 1]) == React(Feed(r, script[..i]), script[i])
  {
    PrefixFits(r, script, i);
    PrefixFits(r, script, i + 1);
    assert script[..i + 1][..i] == script[..i];
  }

  /** A runner that awaits nothing has seen the whole script. */
  lemma NothingLeft(r: State, script: seq<Event>, i: nat)
    requires Fits(r, script) && i <= |script| && Fits(r, script[..i])
    requires Feed(r, script[..i]).phase.Idle?
    ensures i == |script|
  {
    if i < |script| {
      OneMore(r, script, i);
      assert false;
    }
  }

  // ---------------------------------------------------------------- how a task ends

  lemma FeedOneOn(r: State, script: seq<Event>, e: Event)
    requires Fits(r, script) && Awaits(Feed(r, script).phase, e.what)
    ensures Fits(r, script + [e]) && Feed(r, script + [e]) == React(Feed(r, script), e)
  {
    assert (script + [e])[..|script|] == script;
  }

  lemma OneEvent(r: State, e: Event)
    requires Awaits(r.phase, e.what)
    ensures Fits(r, [e]) && Feed(r, [e]) == React(r, e)
  {
    assert Fits(r, []) && Feed(r, []) == r && [] + [e] == [e];
    FeedOneOn(r, [], e);
  }

  lemma {:induction false} FeedInParts(r: State, script: seq<Event>, more: seq<Event>)
    requires Fits(r, script) && Fits(Feed(r, script), more)
    ensures Fits(r, script + more) && Feed(r, script + more) == Feed(Feed(r, script), more)
    decreases |more|
  {
    if more == [] {
      assert script + more == script;
    } else {
      var n := |more| - 1;
      assert Awaits(Feed(Feed(r, script), more[..n]).phase, more[n].what);
      assert more[..n] + [more[n]] == more && script + more[..n] + [more[n]] == script + more;
      hide Fits, Feed, React;
      FeedInParts(r, script, more[..n]);
      FeedOneOn(r, script + more[..n], more[n]);
      FeedOneOn(Feed(r, script), more[..n], more[n]);
    }
  }

  /** The events have run their course: they fit, and lead from `r` to `r'`. */
  ghost predicate Leads(r: State, script: seq<Event>, r': State) {
    Fits(r, script) && Feed(r, script) == r'
  }

  lemma LeadsOn(r: State, script: seq<Event>, r': State, more: seq<Event>, r'': State)
    requires Leads(r, script, r') && Leads(r', more, r'')
    ensures Leads(r, script + more, r'')
  {
    FeedInParts(r, script, more);
  }

  lemma LeadsOneOn(r: State, script: seq<Event>, r': State, e: Event)
    requires Leads(r, script, r') && Awaits(r'.phase, e.what)
    ensures Leads(r, script + [e], React(r', e))
  {
    OneEvent(r', e);
    LeadsOn(r, script, r', [e], React(r', e));
  }

  /** Any number of answers that tell the runner to wait. */
  predicate Waits(script: seq<Event>) {
    forall e :: e in script ==> e.what.Answer? && e.what.reply.Remaining? && e.what.reply.ms != 0
  }

  lemma {:induction false} WaitingChangesNothing(r: State, polls: seq<Event>)
    requires r.phase.Leasing? && Waits(polls)
    ensures Leads(r, polls, r)
  {
    if polls != [] {
      var n := |polls| - 1;
      WaitingChangesNothing(r, polls[..n]);
      LeadsOneOn(r, polls[..n], r, polls[n]);
      assert polls[..n] + [polls[n]] == polls;
    }
  }

  function Ended(r: State, ending: Ending): State {
    r.(phase := Idle(Some(ending)))
  }

  /** The runner with one more result, which it has just returned. */
  function Returning(r: State, key: string, value: Bytes): State {
    State(r.token, r.position + 1, Idle(Some(Returned(value))), r.results + [(key, value)])
  }

  /** Replay: whoever, after any wait, is answered a stored value returns it and moves on. */
  lemma StoredValueIsReturned(r: State, task: Task, polls: seq<Event>, now: int, value: Bytes)
    requires Waits(polls)
    ensures Leads(Begin(r, task), polls + [Event(now, Answer(Stored(value)))], Returning(r, task.key, value))
  {
    WaitingChangesNothing(Begin(r, task), polls);
    LeadsOneOn(Begin(r, task), polls, Begin(r, task), Event(now, Answer(Stored(value))));
  }

  /** A lease refused is thrown, unless the first position is refused for want of a token:
      that is asked for once more, and then any refusal is thrown. */
  lemma RefusalIsThrown(r: State, task: Task, polls: seq<Event>, now: int, error: Error,
                        polls': seq<Event>, now': int, error': Error)
    requires Waits(polls) && Waits(polls')
    ensures var script := polls + [Event(now, Answer(Refused(error)))];
            if error == FencingTokenNotFound && r.position == 0 then
              Leads(Begin(r, task), script + polls' + [Event(now', Answer(Refused(error')))],
                    Ended(r, Threw(Rejected(error'))))
            else Leads(Begin(r, task), script, Ended(r, Threw(Rejected(error))))
  {
    var start, refused := Begin(r, task), Event(now, Answer(Refused(error)));
    WaitingChangesNothing(start, polls);
    LeadsOneOn(start, polls, start, refused);
    if error == FencingTokenNotFound && r.position == 0 {
      var again := start.(phase := Leasing(task, true));
      WaitingChangesNothing(again, polls');
      LeadsOn(start, polls + [refused], again, polls', again);
      LeadsOneOn(start, polls + [refused] + polls', again, Event(now', Answer(Refused(error'))));
    }
  }

  /** After the one retry a stored value is returned, and a grant taken, as after none. */
  lemma RetryIsAsGood(r: State, task: Task, polls: seq<Event>, now: int, polls': seq<Event>, now': int, value: Bytes)
    requires Waits(polls) && Waits(polls') && r.position == 0
    ensures var script := polls + [Event(now, Answer(Refused(FencingTokenNotFound)))] + polls';
            && Leads(Begin(r, task), script + [Event(now', Answer(Stored(value)))], Returning(r, task.key, value))
            && Leads(Begin(r, task), script + [Event(now', Answer(Granted))],
                     r.(phase := Executing(task, now' + Timeout(task))))
  {
    var start, refused := Begin(r, task), Event(now, Answer(Refused(FencingTokenNotFound)));
    var again := start.(phase := Leasing(task, true));
    WaitingChangesNothing(start, polls);
    LeadsOneOn(start, polls, start, refused);
    WaitingChangesNothing(again, polls');
    LeadsOn(start, polls + [refused], again, polls', again);
    LeadsOneOn(start, polls + [refused] + polls', again, Event(now', Answer(Stored(value))));
    LeadsOneOn(start, polls + [refused] + polls', again, Event(now', Answer(Granted)));
  }

  lemma LostLeaseCallIsThrown(r: State, task: Task, polls: seq<Event>, now: int)
    requires Waits(polls)
    ensures Leads(Begin(r, task), polls + [Event(now, NoAnswer)], Ended(r, Threw(CallFailed)))
  {
    WaitingChangesNothing(Begin(r, task), polls);
    LeadsOneOn(Begin(r, task), polls, Begin(r, task), Event(now, NoAnswer));
  }

  /** A grant starts the task; the client counts the lease from when it learns of it. A
      remaining time of zero is taken for a grant. */
  lemma GrantStartsTask(r: State, task: Task, polls: seq<Event>, now: int, reply: Reply)
    requires Waits(polls) && (reply == Granted || reply == Remaining(0))
    ensures Leads(Begin(r, task), polls + [Event(now, Answer(reply))],
                  r.(phase := Executing(task, now + Timeout(task))))
  {
    WaitingChangesNothing(Begin(r, task), polls);
    LeadsOneOn(Begin(r, task), polls, Begin(r, task), Event(now, Answer(reply)));
  }

  /** A task that fails: a rejected promise has its lease released, and whatever becomes of
      that call is thrown as a failure; a task that throws before giving a promise is not. */
  lemma FailedTaskIsThrown(r: State, now: int, now': int)
    requires r.phase.Executing?
    ensures Leads(r, [Event(now, TaskThrewAtOnce)], Ended(r, Threw(TaskFailed)))
    ensures Leads(r, [Event(now, TaskRejected)], r.(phase := Releasing(r.phase.task, r.phase.deadline)))
    ensures Leads(r, [Event(now, TaskRejected)] + [Event(now', Answer(Released))], Ended(r, Threw(TaskFailed)))
    ensures Leads(r, [Event(now, TaskRejected)] + [Event(now', NoAnswer)], Ended(r, Threw(CallFailed)))
  {
    OneEvent(r, Event(now, TaskThrewAtOnce));
    OneEvent(r, Event(now, TaskRejected));
    var releasing := r.(phase := Releasing(r.phase.task, r.phase.deadline));
    LeadsOneOn(r, [Event(now, TaskRejected)], releasing, Event(now', Answer(Released)));
    LeadsOneOn(r, [Event(now, TaskRejected)], releasing, Event(now', NoAnswer));
  }

  predicate IsFailedSave(e: Event) {
    e.what == NoAnswer || (e.what.Answer? && e.what.reply.Refused?)
  }

  /** Any number of attempts to save, lost or refused, all before the deadline. */
  predicate SavesInVain(script: seq<Event>, deadline: int) {
    forall e :: e in script ==> IsFailedSave(e) && e.now < deadline
  }

  function SavingOf(r: State, value: Bytes): State
    requires r.phase.Executing?
  {
    r.(phase := Saving(r.phase.task, value, r.phase.deadline))
  }

  lemma {:induction false} SavingGoesOn(r: State, fails: seq<Event>)
    requires r.phase.Saving? && SavesInVain(fails, r.phase.deadline)
    ensures Leads(r, fails, r)
  {
    if fails != [] {
      var n := |fails| - 1;
      SavingGoesOn(r, fails[..n]);
      LeadsOneOn(r, fails[..n], r, fails[n]);
      assert fails[..n] + [fails[n]] == fails;
    }
  }

  lemma TaskReturnsInTime(r: State, now: int, value: Bytes, fails: seq<Event>)
    requires r.phase.Executing? && now < r.phase.deadline && SavesInVain(fails, r.phase.deadline)
    ensures Leads(r, [Event(now, TaskReturned(value))] + fails, SavingOf(r, value))
  {
    OneEvent(r, Event(now, TaskReturned(value)));
    SavingGoesOn(SavingOf(r, value), fails);
    LeadsOn(r, [Event(now, TaskReturned(value))], SavingOf(r, value), fails, SavingOf(r, value));
  }

  /** A result acknowledged, after any number of attempts in vain, is returned; but with word
      to abort it is not: the runner throws, and neither moves on nor keeps the result. */
  lemma AcknowledgedResultIsReturned(r: State, now: int, value: Bytes, fails: seq<Event>, now': int, abort: bool)
    requires r.phase.Executing? && now < r.phase.deadline && SavesInVain(fails, r.phase.deadline)
    ensures Leads(r, [Event(now, TaskReturned(value))] + fails + [Event(now', Answer(Acknowledged(abort)))],
                  if abort then Ended(r, Threw(PersistedButSuperseded)) else Returning(r, r.phase.task.key, value))
  {
    TaskReturnsInTime(r, now, value, fails);
    LeadsOneOn(r, [Event(now, TaskReturned(value))] + fails, SavingOf(r, value),
               Event(now', Answer(Acknowledged(abort))));
  }

  /** Where the runner goes when its deadline has passed unacknowledged. */
  function PastDeadline(r: State, value: Bytes): State
    requires r.phase.Executing?
  {
    var task := r.phase.task;
    if task.onAbort.None? then Returning(r, task.key, value)
    else if RetryLimit(task.onAbort.value) > 0 then r.(phase := RollingBack(RetryLimit(task.onAbort.value)))
    else Ended(r, Threw(RolledBack))
  }

  /** The deadline passes: as the task returns, or as an attempt to save comes to nothing.
      Without a rollback function the runner goes on as if the result had been stored. */
  lemma DeadlinePasses(r: State, now: int, value: Bytes, fails: seq<Event>, last: Event)
    requires r.phase.Executing? && SavesInVain(fails, r.phase.deadline)
    requires IsFailedSave(last) && last.now >= r.phase.deadline
    ensures now >= r.phase.deadline ==> Leads(r, [Event(now, TaskReturned(value))], PastDeadline(r, value))
    ensures now < r.phase.deadline ==>
              Leads(r, [Event(now, TaskReturned(value))] + fails + [last], PastDeadline(r, value))
  {
    if now >= r.phase.deadline {
      OneEvent(r, Event(now, TaskReturned(value)));
    } else {
      TaskReturnsInTime(r, now, value, fails);
      LeadsOneOn(r, [Event(now, TaskReturned(value))] + fails, SavingOf(r, value), last);
    }
  }

  predicate RollbacksInVain(script: seq<Event>) {
    forall e :: e in script ==> e.what.RollbackThrew?
  }

  lemma {:induction false} RollingBackGoesOn(r: State, fails: seq<Event>)
    requires r.phase.RollingBack? && |fails| < r.phase.left && RollbacksInVain(fails)
    ensures Leads(r, fails, r.(phase := RollingBack(r.phase.left - |fails|)))
  {
    if fails != [] {
      var n := |fails| - 1;
      RollingBackGoesOn(r, fails[..n]);
      LeadsOneOn(r, fails[..n], r.(phase := RollingBack(r.phase.left - n)), fails[n]);
      assert fails[..n] + [fails[n]] == fails;
    }
  }

  /** Rolling back ends at the first success, or with the last try allowed, and is thrown. */
  lemma RollbackIsThrown(r: State, fails: seq<Event>, last: Event)
    requires r.phase.RollingBack? && |fails| < r.phase.left && RollbacksInVain(fails)
    requires last.what.RollbackReturned? || (last.what.RollbackThrew? && |fails| + 1 == r.phase.left)
    ensures Leads(r, fails + [last], Ended(r, Threw(RolledBack)))
  {
    RollingBackGoesOn(r, fails);
    LeadsOneOn(r, fails, r.(phase := RollingBack(r.phase.left - |fails|)), last);
  }

  /** Absent or zero, the lease timeout is thirty seconds and the rollback tried three times. */
  lemma DefaultOptions(task: Task, options: RollbackOptions)
    ensures Timeout(task) == 30000 <==>
              task.leaseTimeout.None? || task.leaseTimeout.value == 0 || task.leaseTimeout.value == 30000
    ensures task.leaseTimeout.Some? && task.leaseTimeout.value != 0 ==> Timeout(task) == task.leaseTimeout.value
    ensures RetryLimit(options) == 3 <==>
              options.retryCount.None? || options.retryCount.value == 0 || options.retryCount.value == 3
    ensures options.retryCount.Some? && options.retryCount.value != 0 ==>
              RetryLimit(options) == options.retryCount.value
  {
  }

  ghost predicate HasAdvanced(r: State, key: string, r': State) {
    if r'.phase.Idle? && r'.phase.ending.Some? && r'.phase.ending.value.Returned? then
      r' == Returning(r, key, r'.phase.ending.value.value)
    else r' == r.(phase := r'.phase)
  }

  /** Over any course of events, a runner moves on, by one position and one result, exactly
      as it returns that result; a task that throws leaves position and results alone. */
  lemma {:induction false} AdvancesByReturning(r: State, task: Task, script: seq<Event>)
    requires Fits(Begin(r, task), script)
    ensures HasAdvanced(r, task.key, Feed(Begin(r, task), script))
    ensures var phase := Feed(Begin(r, task), script).phase;
            phase.Leasing? || phase.Executing? || phase.Saving? || phase.Releasing? ==> phase.task == task
    decreases |script|
  {
    if script != [] {
      var n := |script| - 1;
      AdvancesByReturning(r, task, script[..n]);
      assert Feed(Begin(r, task), script) == React(Feed(Begin(r, task), script[..n]), script[n]);
      hide Fits, Feed;
    }
  }

  predicate IsStoredValue(e: Event) {
    e.what.Answer? && e.what.reply.Stored?
  }

  lemma ScriptOfReplay(r: State, task: Task, script: seq<Event>)
    requires |script| > 0 && Waits(script[..|script| - 1]) && IsStoredValue(script[|script| - 1])
    ensures Leads(Begin(r, task), script, Returning(r, task.key, script[|script| - 1].what.reply.value))
  {
    var n := |script| - 1;
    var last := script[n];
    assert last == Event(last.now, Answer(Stored(last.what.reply.value)));
    assert script[..n] + [last] == script;
    hide Leads, Waits;
    StoredValueIsReturned(r, task, script[..n], last.now, last.what.reply.value);
  }

  class Runner {
    const token: int
    var position: int
    var phase: Phase
    var results: seq<(string, Bytes)>

    function Now(): State
      reads this
    {
      State(token, position, phase, results)
    }

    /** The runner is where `i` events of the script took it. */
    ghost predicate At(start: State, script: seq<Event>, i: nat)
      reads this
    {
      i <= |script| && Fits(start, script[..i]) && Now() == Feed(start, script[..i])
    }

    constructor (token: int)
      ensures Now() == State(token, 0, Idle(None), [])
    {
      this.token := token;
      position, phase, results := 0, Idle(None), [];
    }

    /** `execute`: runs one task to its end, or as far as the script goes, and does exactly
        what the state machine does. */
    method Execute(task: Task, script: seq<Event>) returns (ending: Option<Ending>)
      requires phase.Idle? && Fits(Begin(Now(), task), script)
      modifies this
      ensures Now() == Feed(Begin(old(Now()), task), script)
      ensures ending == if phase.Idle? then phase.ending else None
      ensures |script| > 0 && Waits(script[..|script| - 1]) && IsStoredValue(script[|script| - 1]) ==>
                var value := script[|script| - 1].what.reply.value;
                && ending == Some(Returned(value))
                && position == old(position) + 1 && results == old(results) + [(task.key, value)]
      ensures HasAdvanced(old(Now()), task.key, Now())
    {
      ghost var before := Now();
      ghost var start := Begin(Now(), task);
      AdvancesByReturning(before, task, script);
      if |script| > 0 && Waits(script[..|script| - 1]) && IsStoredValue(script[|script| - 1]) {
        ScriptOfReplay(before, task, script);
      }
      assert script[..0] == [];
      phase := Leasing(task, false);
      assert At(start, script, 0);
      hide Fits, Feed, HasAdvanced, Waits;
      var i := LeaseLoop(task, script, start);
      if phase.Executing? && i < |script| {
        i := RunTask(task, script, i, start);
      }
      assert script[..|script|] == script;
      if phase.Idle? {
        NothingLeft(start, script, i);
        ending := phase.ending;
      } else {
        ending := None;
      }
    }

    /** Runs a task under its lease, then saves its result or releases the lease. */
    method RunTask(task: Task, script: seq<Event>, from: nat, ghost start: State) returns (i: nat)
      requires from < |script| && Fits(start, script) && At(start, script, from)
      requires phase.Executing? && phase.task == task
      modifies this
      ensures At(start, script, i)
      ensures phase.Idle? || i == |script|
    {
      hide Fits, Feed;
      OneMore(start, script, from);
      var event := script[from];
      i := from + 1;
      if event.what.TaskReturned? {
        i := SaveLoop(task, event.what.value, phase.deadline, event.now, script, i, start);
        if phase.RollingBack? {
          i := RollbackLoop(script, i, start);
        }
      } else if event.what.TaskRejected? {
        phase := Releasing(task, phase.deadline);
        if i < |script| {
          OneMore(start, script, i);
          phase := Idle(Some(Threw(if script[i].what.Answer? then TaskFailed else CallFailed)));
          i := i + 1;
        }
      } else {
        phase := Idle(Some(Threw(TaskFailed)));
      }
    }

    /** Asks for the lease until it is granted, answered with a stored value, or refused. */
    method LeaseLoop(task: Task, script: seq<Event>, ghost start: State) returns (i: nat)
      requires phase == Leasing(task, false) && Fits(start, script) && At(start, script, 0)
      modifies this
      ensures At(start, script, i)
      ensures phase.Idle? || phase.Executing? || i == |script|
      ensures phase.Executing? ==> phase.task == task
      ensures phase.Executing? || phase.Leasing? || phase.Idle?
    {
      hide Fits, Feed;
      i := 0;
      var errorCount := 0;
      while i < |script|
        invariant At(start, script, i) && 0 <= errorCount <= 1
        invariant phase == Leasing(task, errorCount == 1)
      {
        OneMore(start, script, i);
        var event := script[i];
        i := i + 1;
        if event.what == NoAnswer {
          phase := Idle(Some(Threw(CallFailed)));
          return;
        }
        var reply := event.what.reply;
        if reply.Stored? {
          position := position + 1;
          results := results + [(task.key, reply.value)];
          phase := Idle(Some(Returned(reply.value)));
          return;
        } else if reply.Refused? {
          if !(reply.error == FencingTokenNotFound && position == 0 && errorCount < 1) {
            phase := Idle(Some(Threw(Rejected(reply.error))));
            return;
          }
          errorCount := errorCount + 1;
          phase := Leasing(task, true);
        } else if reply.Granted? || reply.ms == 0 {
          phase := Executing(task, event.now + Timeout(task));
          return;
        }
      }
    }

    /** Checkpoints the result until acknowledged or until the deadline has passed. */
    method SaveLoop(task: Task, value: Bytes, deadline: int, now: int,
                    script: seq<Event>, from: nat, ghost start: State)
      returns (i: nat)
      requires 0 < from <= |script| && Fits(start, script)
      requires Fits(start, script[..from])
      requires Feed(start, script[..from]) == TrySave(Now(), task, value, deadline, now)
      modifies this
      ensures At(start, script, i)
      ensures phase.Idle? || (phase.RollingBack? && phase.left > 0) || (phase.Saving? && i == |script|)
    {
      hide Fits, Feed;
      i := from;
      var clock := now;
      var abort: Option<bool> := None;
      while clock < deadline
        invariant from <= i <= |script| && Fits(start, script[..i])
        invariant abort == None
        invariant unchanged(this) || phase.Saving?
        invariant position == old(position) && results == old(results)
        invariant Feed(start, script[..i]) == TrySave(Now(), task, value, deadline, clock)
        decreases |script| - i
      {
        phase := Saving(task, value, deadline);
        if i == |script| {
          return;
        }
        OneMore(start, script, i);
        var event := script[i];
        i := i + 1;
        clock := event.now;
        if event.what.Answer? && event.what.reply.Acknowledged? {
          abort := Some(event.what.reply.abort);
          break;
        }
      }
      if abort == Some(true) {
        phase := Idle(Some(Threw(PersistedButSuperseded)));
      } else if abort == None && task.onAbort.Some? {
        var limit := RetryLimit(task.onAbort.value);
        phase := if limit > 0 then RollingBack(limit) else Idle(Some(Threw(RolledBack)));
      } else {
        position := position + 1;
        results := results + [(task.key, value)];
        phase := Idle(Some(Returned(value)));
      }
    }

    /** Calls the rollback function until it succeeds or its retries are used up. */
    method RollbackLoop(script: seq<Event>, from: nat, ghost start: State) returns (i: nat)
      requires At(start, script, from) && Fits(start, script) && phase.RollingBack? && phase.left > 0
      modifies this
      ensures At(start, script, i)
      ensures phase.Idle? || (phase.RollingBack? && i == |script|)
    {
      hide Fits, Feed;
      i := from;
      var tries, retryCount := 0, phase.left;
      while tries < retryCount
        invariant from <= i <= |script| && Fits(start, script[..i])
        invariant 0 <= tries <= retryCount
        invariant tries < retryCount ==> At(start, script, i) && phase == RollingBack(retryCount - tries)
        invariant tries == retryCount ==> Feed(start, script[..i]) == Fail(Now(), RolledBack)
      {
        if i == |script| {
          return;
        }
        OneMore(start, script, i);
        var event := script[i];
        i := i + 1;
        if event.what.RollbackReturned? {
          break;
        }
        tries := tries + 1;
        if tries < retryCount {
          phase := RollingBack(retryCount - tries);
        }
      }
      phase := Idle(Some(Threw(RolledBack)));
    }
  }
}
