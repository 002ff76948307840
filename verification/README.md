# Lease, fencing-token and checkpoint protocol: a Dafny model

Many workers may run one workflow at once. Before it runs what belongs at a position, a worker
asks the server for a lease; afterwards it checkpoints the result, and every later worker is
given the stored result instead of computing it again. Fencing tokens rank the workers by the
order in which they started. This project models both halves of that protocol, the Rust server
and the TypeScript runner, and proves what they guarantee together over whole runs.

## How the model is laid out

| file | what it holds |
|---|---|
| `LeaseTime.dfy`, `LeaseKeys.dfy` | 64-bit lease arithmetic and cache time to live; the `id:position` cache key |
| `Protocol.dfy` | one workflow (metadata, token, rows, leases) and what each request does to it as one step |
| `Server.dfy` | `Stores`, the three tables and the string-keyed cache with every repository and service method, proved against `Protocol` workflow by workflow |
| `History.dfy`, `GrantBound.dfy`, `Polling.dfy` | runs of the server under arbitrary requests: tokens, rows, re-delivery, retention, grant bound, polling bound |
| `Answers.dfy` | what the server stores and answers, told from earlier requests alone |
| `Runners.dfy` | the client as a state machine (`React`) and as a class with its three loops, proved to be that machine; how every course of events ends |
| `System.dfy`, `ServerSide.dfy` | any number of runners with the server: crashes, requests and answers lost, delayed or repeated, a clock; provenance; tokens of runners; the server's part is a run in the sense of `History` |
| `Timely.dfy`, `Guarantees.dfy` | the timing assumption, the joint invariant, mutual exclusion, execution counting, crash-and-retry refinement |
| `Replay.dfy` | stored results are returned again, and a new runner can catch up with all of them without starting a task |
| `Exactness.dfy` | what a late step does to exclusion and to results, exactly |
| `Statements.dfy` | every SQL statement its own step and every read lagging: agreement, token order, and exactly when fencing and durable keys fail |
| `Segments.dfy`, `Limits.dfy` | stretches of history to build others from; concrete histories that show what the assumptions are needed for |

The whole-run machines are about one workflow. `Server.Stores.Serve` and `Server.WorkflowsRunApart`
show that a server shared by all workflows treats each of them as if it were alone, so nothing is
lost by that. Three machines are used, from the most hostile to the most orderly.

* **Statements** (`Statements.IsTrace`). Statements of different handlers interleave, a read sees
  any earlier prefix of the write log, a cache read may return anything. Stored values and issued
  tokens survive this; fencing and durable keys do not, and `Statements.GrantOverlooksUnseenStarts`
  and `Statements.AnsweredKeyIsStored` say exactly when they fail. Reading the newest state does not
  help: a start that comes between a handler's token check and its put goes unnoticed.
* **Requests as steps** (`History.IsRun`, `System.IsHistory`). Each handler is one step. This is
  what the lock at `checkpoint_service.rs:143-144` and `:214-215` is there for, and it is an
  assumption: `let _ =` drops the guard at once, the row is looked up before the lock is taken
  (`:118`), and a checkpoint removes the lease entry well before it inserts the row (`:42-45`, `:76`).
  Requests may otherwise come from anyone, in any order, any number of times. A runner's call is
  two steps, its handling by the server and the receipt of the answer, and either may be late or
  not come at all; so the client's own deadline, counted from the receipt, may lie after the
  server's expiry of the lease.
* **Timely histories** (`Timely.IsTimelyHistory`). A runner *holds* a lease from the moment the
  server grants it, answer still under way, until the server has handled its checkpoint or removed
  the lease it waits to release, or until it crashes or walks away. In addition to the above,
  * no holder's lease effectively ends, at
    `created_at + min(timeout, 1000 * max(timeout / 1000, 30))`, while it still holds it;
  * a release, or a checkpoint not accepted before, is handled only while nobody holds its position
    but its own sender (or a runner that waits to release it);
  * lease timeouts are positive, and no cleanup deletes the workflow.

  Crashes, failures, lost and delayed answers, overlapping runners, abandoned leases, and late or
  repeated requests of all kinds remain, among them late releases and checkpoints of runners that
  gave up or crashed, as long as nobody else holds the position. `Exactness.OnTimeIsExact` shows that
  the assumption is necessary for the joint invariant. For exclusion and for results themselves,
  `Exactness.TimeThenGrant`, `ReleaseThenGrant`, `CheckpointThenSave`, `CheckpointThenReturn` and
  `CleanupThenSave` say, for each way of being late, exactly when harm is done, and `Limits` has a
  history for each in which one step is late and all others are on time. Token discipline needs
  none of this (`ServerSide.RunnersCarryDistinctTokens`, `ServerSide.AbortTellsOfLaterStart`).

## Where code and documentation differ

The model follows the code.

* A generated idempotency key leaves a row without a value, and the upsert never fills it in
  (`checkpoints.rs:32`). The position is closed to leases from then on
  (`History.GeneratedKeyClosesPosition`), and a checkpoint that meets such a row is acknowledged
  without being stored (`Timely.FirstSave`, `Limits.KeyGenerationLosesResult`). This is the one
  exception to "each result is stored once", and `Guarantees.ResultsAreTheStoredOnes` shows it is
  the only one.
* `server/parallelism-guard.plantuml` has a release carry the token and a checkpoint tried up to ten
  times; the code sends a release without token and retries until the client's deadline.
* The same diagram releases the lease whenever a task fails. A task that throws before it returns
  a promise leaves the lease in place, since the call is outside the `try`
  (`idempotent-transformer.ts:104-119`).
* `finish_workflow` answers `fencing_token_expired` to a token *newer* than the stored one; older
  tokens may complete the workflow (`History.AnyIssuedTokenMayFinish`).
* Restarting a completed workflow keeps its status and expiry, so cleanup may take it away while
  it runs (`History.RowsLastUntilExpiry`, `History.CompletionIsFinal`).
* Cleanup leaves the lease cache alone, and token numbering restarts after it; claims about tokens
  are therefore made per incarnation (`History.SameIncarnation`).

## Model

| member | source | states |
|---|---|---|
| LeaseTime.SaturationIsExact | server/src/services/checkpoint_service.rs:29-36 | the saturating "time is left" test agrees with exact arithmetic for every entry and `i64` clock if and only if not both the clock is at its maximum and the expiry lies past it |
| LeaseTime.CacheCoversLease | server/src/repositories/lease_checkpoint.rs:18-31 | the cache keeps an entry for the whole lease iff the timeout is at most 30000 ms or whole seconds; otherwise it falls short by exactly `timeout % 1000`; a positive timeout gives a positive effective lease |
| LeaseTime.ProtectedUntilEffectiveEnd | server/src/repositories/lease_checkpoint.rs:18-31 | before its effective end a lease is still cached and still has time left |
| LeaseTime.WrapIsExact | server/src/services/workflow_service.rs:70 | the expiry written on completion is the exact sum iff that sum fits in 64 bits |
| LeaseKeys.LeaseKeyRoundTrip | server/src/repositories/lease_checkpoint.rs:8-10 | splitting a cache key at its last colon recovers every id, colons included, and every signed position |
| LeaseKeys.LeaseKeyDeterminesPlace | server/src/repositories/lease_checkpoint.rs:8-10 | no two (workflow, position) pairs share a cache slot |
| Server.Stores.CreateOrGetWorkflow | server/src/repositories/workflows.rs:9-32 | inserts a running workflow or changes only the name of a known one |
| Server.Stores.DeleteExpiredWorkflows | server/src/repositories/workflows.rs:47-59 | does to every workflow's metadata, and to nothing else, what the cleanup step does to it |
| Server.Stores.GetFencingToken | server/src/repositories/workflows_fencing_tokens.rs:6-17 | the workflow's stored token, if any |
| Server.Stores.DeleteExpiredFencingTokens | server/src/repositories/workflows_fencing_tokens.rs:31-43 | does to every workflow's token, and to nothing else, what the cleanup step does to it |
| Server.Stores.GetCheckpoint | server/src/repositories/checkpoints.rs:9-21 | the row at a position, if any |
| Server.Stores.CreateCheckpoint | server/src/repositories/checkpoints.rs:23-37 | first write wins: a present row keeps key and value; no other position or workflow changes |
| Server.Stores.DeleteExpiredCheckpoints | server/src/repositories/checkpoints.rs:39-51 | does to every workflow's rows, and to nothing else, what the cleanup step does to them |
| Server.Stores.PutLease | server/src/repositories/lease_checkpoint.rs:12-37 | under a string key, sets the lease of one position of one workflow and nothing else |
| Server.Stores.GetLease | server/src/repositories/lease_checkpoint.rs:50-58 | reads the lease of one position of one workflow |
| Server.Stores.RemoveLease | server/src/repositories/lease_checkpoint.rs:39-48 | returns and removes the lease of one position of one workflow and nothing else |
| Server.Stores.CreateWorkflow | server/src/services/workflow_service.rs:24-41 | the start step of the protocol on the addressed workflow; all other workflows unchanged |
| Server.Stores.HandleLease | server/src/services/checkpoint_service.rs:105-189 | the lease step, all eight outcomes in order of precedence; all other workflows unchanged |
| Server.Stores.HandleCheckpoint | server/src/services/checkpoint_service.rs:38-86 | the checkpoint step, with the lease entry removed even when it is refused; all other workflows unchanged |
| Server.Stores.ReleaseCheckpoint | server/src/services/checkpoint_service.rs:191-198 | removes the lease whoever asks; all other workflows unchanged |
| Server.Stores.CreateDurableIdempotencyKey | server/src/services/checkpoint_service.rs:210-256 | the key step: a present row's key, or a placeholder row under the new key; all other workflows unchanged |
| Server.Stores.FinishWorkflow | server/src/services/workflow_service.rs:51-85 | the completion step with its wrapping expiry; all other workflows unchanged |
| Server.Stores.HandleWorkflowCleanup | server/src/services/workflow_service.rs:87-104 | the three deletes on one timestamp clear expired workflows entirely and leave every other one, and all leases, as they were |
| Server.Stores.NoOrphansMeansLinked | server/migrations/1_init.sql:1-23 | checkpoint ids lie within token ids within workflow ids iff every single workflow is linked |
| Server.Stores.Serve | server/src/rpc_server/server.rs:57-195 | any run of the whole server leaves each workflow, and answers each call, exactly as if that workflow were served alone; and it leaves no orphans behind |
| Server.WorkflowsRunApart | server/src/repositories/lease_checkpoint.rs:8-10 | a workflow's share of a whole-server run is a run of that workflow on exactly the calls that concern it |
| History.TokenCountsStarts | server/src/repositories/workflows_fencing_tokens.rs:19-29 | within an incarnation the stored token is a pure counter of starts |
| History.IssuedTokensRise | server/src/services/workflow_service.rs:24-41 | issued tokens are pairwise distinct and differ by the number of starts in between |
| History.AbortTellsOfNewerStart | server/src/services/checkpoint_service.rs:59-85 | an accepted checkpoint answers abort iff somebody started the workflow since its sender did |
| History.SupersededTokensGetNoLease | server/src/services/checkpoint_service.rs:171-188 | once a newer start is answered, no older token is granted a lease at any position |
| History.GrantsCarryRisingTokens | server/src/services/checkpoint_service.rs:171-188 | grants carry the stored token, which rises with the starts in between |
| History.AnyIssuedTokenMayFinish | server/src/services/workflow_service.rs:55-69 | completion is accepted iff the token has been issued by then, older ones included |
| History.FirstWriteWins | server/src/repositories/checkpoints.rs:30-36 | within an incarnation a row's key and value never change |
| History.DurableKeyIsStable | server/src/services/checkpoint_service.rs:210-256 | all keys generated for a position are one key, and it is the key leases are compared with |
| History.RowEndsLeasing | server/src/services/checkpoint_service.rs:118-141 | a position with a row is never granted again, and is answered with its value iff the keys agree and the first write had a value |
| History.GeneratedKeyClosesPosition | server/src/services/checkpoint_service.rs:244-251 | after key generation on an unwritten position every lease there is refused; refused for a missing value iff the row was first written without one and the keys agree |
| History.ValuesStayUnleased | server/src/services/checkpoint_service.rs:42-86 | every request keeps positions with a stored value free of leases |
| History.RedeliveryChangesNothing | server/src/services/checkpoint_service.rs:38-86 | a checkpoint for a stored position changes no key, value, lease or token and is acknowledged with the abort flag of its token |
| History.RedeliveriesAreUnobservable | packages/core/idempotent-transformer/idempotent-transformer.ts:126-142 | striking all re-delivered checkpoints from any run changes no other answer and no key, value, lease or token |
| History.StaysLinked | server/src/services/workflow_service.rs:24-104 | every request keeps rows within tokens within metadata |
| History.ExpiryComesFromLastFinish | server/src/services/workflow_service.rs:70-82 | a stored expiry is that of the most recent accepted completion of the incarnation |
| History.RowsLastUntilExpiry | server/src/services/workflow_service.rs:87-104 | a row is lost only at a leader's cleanup strictly past the expiry of the most recent completion, and then everything but the leases goes |
| History.CompletionIsFinal | server/src/repositories/workflows.rs:15-23 | within an incarnation status never returns from completed to running |
| Answers.TokenIsStartCount | server/src/repositories/workflows_fencing_tokens.rs:19-29 | the stored token is the number of starts since the workflow was created |
| Answers.SupersededByLaterStart | server/src/services/workflow_service.rs:24-41 | a token is below the stored one iff there was a start after the one that issued it |
| Answers.RowsAreWrites | server/src/repositories/checkpoints.rs:23-37 | a position has a row iff it was written since the workflow was created, with key and value of the first write and the date of the last acknowledged checkpoint |
| Answers.CacheIsStandingGrant | server/src/repositories/lease_checkpoint.rs:12-58 | the cache holds exactly the lease of the last grant that no release, checkpoint or expiry has ended |
| Answers.MetaTellsHistory | server/src/repositories/workflows.rs:9-32 | a workflow is created at its first start, named by its last, and marked completed, with time and expiry, by the last accepted completion, and by no start |
| Answers.LeaseIsAnswered | server/src/services/checkpoint_service.rs:105-189 | every lease request of an incarnation, told from earlier requests: from the first write if there is one, else the time left of the standing grant, else by comparing its token with the number of starts |
| Answers.WaiterIsTold | server/src/services/checkpoint_service.rs:154-163 | from a grant to its effective end, unless ended, everybody asking at an unwritten position, with whatever token, is answered the time left |
| Answers.CheckpointIsAnswered | server/src/services/checkpoint_service.rs:38-86 | every checkpoint of an incarnation: it takes the lease; refused, writing nothing, iff its token is superseded and the standing lease ran out; else accepted, with abort iff superseded |
| Answers.StaleCheckpointIsRejected | server/src/services/checkpoint_service.rs:63-71 | a checkpoint with the token of a given start is refused iff a start came after it and the last lease granted there is cached with its time gone |
| Answers.RejectionHappensOnce | server/src/services/checkpoint_service.rs:42-83 | a refused checkpoint sent again at once is accepted with abort, and stored if nothing was |
| Answers.KeyRequestIsAnswered | server/src/services/checkpoint_service.rs:210-256 | every key request of an incarnation: the first write's key, or a new key and a placeholder iff its token is not below the number of starts, or a refusal that changes nothing |
| Answers.SupersededTokensGetNoKey | server/src/services/checkpoint_service.rs:236-242 | once a newer start is handled, a key request with an older token at an unwritten position is refused and changes nothing |
| Answers.CompletionIsAnswered | server/src/services/workflow_service.rs:51-85 | a completion is accepted iff its token is at most the number of starts, and changes only metadata; refused, nothing |
| Answers.CleanupDeletesExpired | server/src/services/workflow_service.rs:87-104 | a cleanup deletes the workflow, all but its leases, iff it runs on the leader strictly past the expiry of the last completion; else it changes nothing |
| Answers.NoWorkflowIsAnswered | server/src/services/checkpoint_service.rs:51-57 | without a workflow every request but starts and releases is refused for want of a token, except that a standing lease still makes others wait |
| GrantBound.GrantsAreBounded | server/src/services/checkpoint_service.rs:105-198 | in any run of one incarnation, grants at a position number at most 1 + releases there + elapsed time / shortest effective lease |
| GrantBound.NoSecondGrantBeforeEffectiveEnd | server/src/services/checkpoint_service.rs:154-163 | without release or checkpoint there, a position is granted again no sooner than the effective end |
| Polling.NeverOversleeps | packages/core/idempotent-transformer/idempotent-transformer.ts:76-78 | a waiter's pause is a tenth of the remaining time in whole milliseconds, at least one, and never longer than it |
| Polling.CountdownIsLogarithmic | packages/core/idempotent-transformer/idempotent-transformer.ts:60-78 | one lease costs a waiter at most eleven polls per bit of the remaining time |
| Polling.RemainingIsPositive | server/src/services/checkpoint_service.rs:154-163 | the server never answers a waiter with a non-positive time |
| Polling.NextPollIsCloser | packages/core/idempotent-transformer/idempotent-transformer.ts:60-99 | from poll to poll (grants, remaining time) moves on lexicographically |
| Polling.WaitingIsBounded | packages/core/idempotent-transformer/idempotent-transformer.ts:60-99 | a waiter polls at most 11 times the bit length of the longest remaining time per grant, hence a bound in releases and elapsed time |
| Runners.Runner.Execute | packages/core/idempotent-transformer/idempotent-transformer.ts:53-175 | for every possible course of events, `execute` does what the runner's state machine does; told to wait any number of times and then given a stored value, it returns that value and moves on by one position and one result; and it moves on only by returning |
| Runners.StoredValueIsReturned | packages/core/idempotent-transformer/idempotent-transformer.ts:60-75 | after any wait a stored value is returned and kept as the next result |
| Runners.RefusalIsThrown | packages/core/idempotent-transformer/idempotent-transformer.ts:82-98 | a refused lease is thrown, but for the first position refused for want of a token, which is asked for once more |
| Runners.RetryIsAsGood | packages/core/idempotent-transformer/idempotent-transformer.ts:82-98 | after the one retry a stored value is returned and a grant taken as after none |
| Runners.GrantStartsTask | packages/core/idempotent-transformer/idempotent-transformer.ts:66-80 | a grant, or a remaining time of zero, starts the task, with the deadline counted from its receipt |
| Runners.FailedTaskIsThrown | packages/core/idempotent-transformer/idempotent-transformer.ts:104-119 | a rejected task has its lease released and is thrown; one that throws before giving a promise is thrown with nothing released |
| Runners.AcknowledgedResultIsReturned | packages/core/idempotent-transformer/idempotent-transformer.ts:121-148 | after any attempts in vain an acknowledged result is returned, or, with word to abort, thrown as superseded without moving on |
| Runners.DeadlinePasses | packages/core/idempotent-transformer/idempotent-transformer.ts:124-174 | past the deadline the runner returns its result all the same without a rollback function, and rolls back with one |
| Runners.RollbackIsThrown | packages/core/idempotent-transformer/idempotent-transformer.ts:150-171 | rolling back ends at the first success or the last try allowed, and is thrown |
| Runners.DefaultOptions | packages/core/idempotent-transformer/idempotent-transformer.ts:54-156 | absent or zero options mean thirty seconds and three tries |
| Runners.AdvancesByReturning | packages/core/idempotent-transformer/idempotent-transformer.ts:53-175 | over any course of events a runner moves on, by one position and one result, exactly as it returns that result |
| Runners.Runner.LeaseLoop | packages/core/idempotent-transformer/idempotent-transformer.ts:60-99 | the lease loop with its one retry follows the machine to a grant, a stored value, a refusal or the end of events |
| Runners.Runner.SaveLoop | packages/core/idempotent-transformer/idempotent-transformer.ts:121-174 | the checkpoint loop follows the machine to acknowledgement, abort, rollback or silent advance |
| Runners.Runner.RollbackLoop | packages/core/idempotent-transformer/idempotent-transformer.ts:150-171 | the rollback loop follows the machine: it ends in an abort at the first success or when its tries are used up |
| System.ReplyTo | server/src/services/checkpoint_service.rs:105-189 | requests are answered in kind, a remaining time is positive, and a grant goes to the stored token only |
| System.AnswersAreGiven | packages/core/idempotent-transformer/idempotent-transformer.ts:66-72 | in every history an answer under way was given by the server to this very runner's call, and the runner has waited for it ever since |
| System.TasksAreBegun | packages/core/idempotent-transformer/idempotent-transformer.ts:65-104 | in every history a task under way was begun when its runner received a grant, and the runner has been executing it ever since |
| System.ValuesHaveProvenance | packages/core/idempotent-transformer/idempotent-transformer.ts:65-134 | in every history, timely or not, each stored value was returned by a task that one and the same runner executed without pause since it was told that its own lease request at that very position, under the stored key, had been granted, its token then being the stored one |
| ServerSide.ServerSideIsRun | server/src/services/checkpoint_service.rs:38-256 | in every history the server's part is a clocked run, so all client-independent results apply |
| ServerSide.GrantsGoToNewestToken | server/src/services/checkpoint_service.rs:171-188 | fencing in the joint system, with no timing assumption |
| ServerSide.RunnersCarryDistinctTokens | server/src/services/workflow_service.rs:24-41 | with no timing assumption, while no cleanup deletes the token, runners carry distinct tokens, none beyond the stored one |
| ServerSide.AbortTellsOfLaterStart | server/src/services/checkpoint_service.rs:59-85 | with no timing assumption, while no cleanup deletes the token, an accepted checkpoint tells its runner to abort iff a start was handled since the one that gave the runner its token |
| Timely.FirstSave | server/src/services/checkpoint_service.rs:42-86 | a holder's first checkpoint is accepted, closes the position, and stores its value iff no row was there |
| Timely.AcceptedMeansClosed | server/src/services/checkpoint_service.rs:38-86 | an accepted checkpoint, on time, late or repeated, leaves its position written and unleased, and the row agrees with it if its sender is alive |
| Timely.RemovalEndsHold | server/src/services/checkpoint_service.rs:191-198 | a timely release or checkpoint, though it carries no proof of holding, takes a holder's lease only as it ends that hold |
| Timely.ServingKeepsInv | server/src/services/checkpoint_service.rs:38-256 | every request handled in time keeps the joint invariant, whoever sent it and however late |
| Timely.GrantMeansFree | server/src/services/checkpoint_service.rs:143-188 | a position that is granted has neither a row nor another holder |
| Timely.StopsSavingWhenAccepted | packages/core/idempotent-transformer/idempotent-transformer.ts:124-174 | a runner that stops saving, acknowledged or given up, has been accepted by then |
| Timely.NextKeepsInv | packages/core/idempotent-transformer/idempotent-transformer.ts:31-190 | every timely step of runners, network, clock and server keeps the joint invariant |
| Exactness.ReleaseThenGrant | server/src/services/checkpoint_service.rs:191-198 | a release handled before a waiting runner's request lets it be granted, and then two runners hold the position iff the release was out of time |
| Exactness.TimeThenGrant | server/src/services/checkpoint_service.rs:143-189 | after any time, a waiting runner is granted a position without a row iff the lease there has effectively ended, and then two runners hold it iff a holder outlasted its lease |
| Exactness.CheckpointThenSave | server/src/services/checkpoint_service.rs:38-86 | a foreign checkpoint handled before a holder's own leaves the holder acknowledged all the same, and the row agrees with the holder's result iff both results are the same or a placeholder was there |
| Exactness.CheckpointThenReturn | packages/core/idempotent-transformer/idempotent-transformer.ts:104-142 | the same for a holder whose task is still running when the foreign checkpoint is handled |
| Exactness.CleanupThenSave | server/src/services/workflow_service.rs:87-104 | a waiting runner's checkpoint is accepted after a cleanup iff the cleanup spared the workflow; otherwise it is refused for want of a token and stored nowhere |
| Guarantees.OneHolderPerPosition | server/src/services/checkpoint_service.rs:143-198 | from grant to delivery a position has at most one holder, every active runner is a holder, and the cached lease is the holder's own, with time left |
| Guarantees.SavesAreAccepted | server/src/services/checkpoint_service.rs:38-86 | in a timely history a checkpoint its runner waits for is accepted, first or repeated, with abort iff a newer token was issued |
| Guarantees.StartsAreCounted | packages/core/idempotent-transformer/idempotent-transformer.ts:53-175 | task starts at a position are at most 1 + failures + crashes there, with equality iff a task is under way or its result was accepted while its runner waited |
| Guarantees.ResultsAreTheStoredOnes | packages/core/idempotent-transformer/idempotent-transformer.ts:43-175 | rows fill an unbroken range from 0, and each returned result is the stored one iff the row is not a placeholder |
| Guarantees.CleanRun | packages/core/idempotent-transformer/idempotent-transformer.ts:43-175 | for every log there is an undisturbed timely run of one runner that produces and stores exactly it |
| Guarantees.FaultyRunRefinesCleanRun | packages/core/idempotent-transformer/idempotent-transformer.ts:43-175 | for every history there is one log and one undisturbed run of one runner that returns and stores exactly that log, such that the store holds the log from position 0 on, up to the first placeholder or the end, and every runner, however runners crashed, failed, retried and overlapped, has returned the log's first results, and more than the log only past a placeholder |
| Replay.StoredAnswerIsReturned | packages/core/idempotent-transformer/idempotent-transformer.ts:66-75 | in every history a runner told of a stored value returns it, moves on and starts no task, and the value was in the row, under its key, when the server answered |
| Replay.ReturnsWhatIsStored | packages/core/idempotent-transformer/idempotent-transformer.ts:66-75 | in a timely history that result is what the row holds still |
| Replay.NewRunnerReplaysLog | packages/core/idempotent-transformer/idempotent-transformer.ts:31-175 | from whatever state a history has led to, a new runner can return the whole stored log, every step on time, with no task started and nothing stored |
| Replay.RestartReturnsEverythingStored | packages/core/idempotent-transformer/idempotent-transformer.ts:31-175 | whatever a timely history has stored, up to the first position without a value, a new runner returns in a timely continuation |
| Statements.AnsweredValuesAgree | server/src/repositories/checkpoints.rs:9-37 | under statement interleaving and lagging reads all values answered for a position are one value, asked for under one key, while no cleanup deletes rows |
| Statements.AnswersStayTrue | server/src/services/checkpoint_service.rs:118-141 | under the same interleaving and lag, whatever was answered of a row (stored, other key, no value, acknowledged, key given) stays true of it |
| Statements.RowCheckIsExact | server/src/services/checkpoint_service.rs:118-141 | a lease request gets past the row iff its read shows none, and otherwise is answered from the row for good |
| Statements.AnsweredTokensRise | server/src/repositories/workflows_fencing_tokens.rs:19-29 | under the same interleaving and lag, answered tokens are distinct and rise in the order answered, while no cleanup deletes the token |
| Statements.TokenCheckIsExact | server/src/services/checkpoint_service.rs:154-188 | without token cleanup a lease request passes the token check iff no cached entry has time left and the log prefix its read saw holds exactly as many starts as its token says |
| Statements.TokenRefusalIsExact | server/src/services/checkpoint_service.rs:154-188 | whoever does not pass the token check is answered the time left, or what the token lacks by the starts its read saw |
| Statements.GrantOverlooksUnseenStarts | server/src/services/checkpoint_service.rs:146-188 | a granted token is older than a started one iff the token read behind the grant did not cover that start's write; for a read of the whole log, iff the read came before the start |
| Statements.LaggingReadDefeatsFencing | server/src/services/checkpoint_service.rs:146-188 | a concrete trace in which a lagging read grants a lease to token 1 after token 2 was answered |
| Statements.FreshReadsStillDefeatFencing | server/src/services/checkpoint_service.rs:146-188 | a concrete trace with the same answers in which every read sees the whole log: the start comes between token check and put |
| Statements.SaveCheckIsExact | server/src/services/checkpoint_service.rs:51-75 | a checkpoint is refused as stale iff the cache read found a lease run out and the earlier token read a newer token |
| Statements.AbortOverlooksUnseenStarts | server/src/services/checkpoint_service.rs:59-85 | an acknowledged checkpoint is told to abort iff its token read covered the write of the start right after its own |
| Statements.AcknowledgedIsStored | server/src/services/checkpoint_service.rs:76-83 | an acknowledged checkpoint is what the row holds ever after iff no row, or an equal one, was there when it was inserted |
| Statements.KeyCheckIsExact | server/src/services/checkpoint_service.rs:226-243 | a key request passes its token check iff the read shows a start and no more starts than its token says |
| Statements.AnsweredKeyIsStored | server/src/services/checkpoint_service.rs:214-256 | while no cleanup deletes rows, an answered durable key is the stored one iff it was read from a row, or no row with another key was there when it was inserted |
| Statements.TwoKeysForOnePosition | server/src/services/checkpoint_service.rs:214-256 | a concrete trace, no read lagging, in which two interleaved requests are answered two keys and the second is never stored |
| Limits.LongTaskBreaksExclusion | server/src/services/checkpoint_service.rs:143-189 | a concrete history in which a task outlasts its lease and two runners execute one position at once; every other step is on time |
| Limits.LateReleaseBreaksExclusion | server/src/services/checkpoint_service.rs:191-198 | a concrete history in which one release, handled once and late, lets two runners execute one position at once; every other step is on time |
| Limits.LateCheckpointSplitsResults | server/src/services/checkpoint_service.rs:38-86 | a concrete history in which one late checkpoint of a crashed runner is stored while another runner, acknowledged, returns a different result; every other step is on time |
| Limits.CleanupStrandsRunner | server/src/services/workflow_service.rs:87-104 | a concrete history in which a completed workflow that goes on is cleaned up under a runner, whose checkpoint is refused; every other step is on time |
| Limits.KeyGenerationLosesResult | server/src/repositories/checkpoints.rs:30-36 | a concrete timely history in which a runner returns a result that is never stored |

## Left out

- gRPC transport, protobuf mapping and error strings: only the kind of each answer is kept; a stored value that is the empty byte string, which the client might take for no value, is not distinguished.
- Raft, SQLite and hiqlite internals: statements are atomic, writes totally ordered, and the cache drops no entry before its time to live; it may keep one longer.
- The distributed lock: its effect is the assumption that a handler is one step; `Statements` does without it.
- Serialization: task results are byte strings, and serializing and deserializing are taken to be inverse and never to fail.
- UUID generation: the new key is a parameter; nothing proved needs it to be fresh.
- Clock readings: the several readings within one handler are one reading, and all nodes and runners share one clock.
- `get_workflow`, server start-up, the cron scheduler, logging, the NestJS module and the examples: cleanup may happen at any step, the rest would add only easy members.
- Database failures, including the ignored result of the workflow insert: both statements of a start are assumed to succeed.
- Token overflow at the 64-bit maximum and its representation as a JavaScript number.
- `complete` and `generateIdempotencyKey` on the client are single calls; they appear as requests a runner may send while idle.
- Concurrent `execute` calls on one runner and key generation from inside a task function: a runner is sequential. A delayed key request landing while a task runs is covered.
- Polling.WaitingIsBounded: the timer's own limit of 2^31 - 1 ms, past which it fires at once, is not modelled; it matters for remaining times of more than about eight months.
- Runners.Runner.Execute: pauses between retries and between rollback attempts are events without duration, and a script that ends leaves the runner suspended where it stands.
- Guarantees.FaultyRunRefinesCleanRun: holds for one incarnation; a history in which cleanup deletes the workflow under its runners is outside the timing assumption, because old runners then carry tokens the new incarnation reissues.
- Statements.AnsweredTokensRise: the statements of completion and of the workflow row are not part of that machine, since neither tokens nor rows depend on them.
