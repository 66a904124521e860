# Agent-run control plane: verified model

The broker runs coding agents (Codex, Claude Code) as jobs over database rows. This project models
that control plane as steps over shared state and proves what it promises in every interleaving, for
every message stream and every table. Around it are six places where a fast or compact form must
agree with a simple one.

| module | part of the system |
|---|---|
| `RunLog`, `RunStatus` | event log, outcome and queue status of one run, written by two-phase writers; what its rows say |
| `Lease`, `Heartbeat` | fenced session lease on one row; the holder's renewals and local deadline |
| `FencedLog` | lease and log together: what a holder may still write after a takeover |
| `ToolHandoff`, `HandoffMeaning` | publish / submit / take / clear of client tool calls; what client and worker meet there |
| `TurnLaw`, `CodexTurn`, `ClaudeTurn` | what a tool turn may do, and the two message loops held to it |
| `CodexProtocol`, `ClaudeProtocol` | what the messages of each protocol make a turn do, told by their fields, up to its final event |
| `ServedTurn` | a tool turn with the replies the queue row really gives |
| `Attempt`, `AuthGate`, `QuotaWait` | one attempt of a run, the Codex start-up gate, retry bounds |
| `Lane` | claiming runs into the slots of a worker lane |
| `Evidence` | the capped "which model served" list |
| `RequestList`, `RequestMeaning` | time-sliced request list against the whole query; what its filters and its order mean |
| `Base64`, `JobFiles` | file bytes moved to a table against inline base64 |
| `Circuit` | pruned circuit-breaker rings against the full history |
| `Ceilings` | learned-ceiling upsert against the rejection log |
| `Images` | two image collectors under one byte budget |
| `Wrappers`, `Decimal`, `Json` | shared helpers |

`dafny verify dfyconfig.toml` checks everything.

Objects and rows the program updates in place are classes; each of their methods is tied to a
function on values, and the theorems are about all sequences of those functions. What each such function
decides is stated once more on its own: on the fields of a message, the columns of a row or the steps taken
so far, with the literal values. Message loops and
collectors are methods with loops. Clocks, replies of the database, CLI messages, file contents,
hashing, image decoding and JSON-schema verdicts are inputs, unconstrained unless a contract says so.

What the code does not do as one might expect, stated as lemmas:

- `requeue_run` does not look at `outcome`: committed on a finished run it leaves `outcome` set and
  the queue status pending. It keeps the two in agreement exactly when the run is unfinished
  (`RunLog.RequeueKeepsAgreementIff`, `RunLog.UnguardedRequeueReopens`).
- The first heartbeat deadline counts from the return of `acquire_lease`, so it can be later than
  `lease_until`; the bound starts with the first renewal (`Heartbeat.FirstDeadlineWithinIff`).
- Some errors leave a turn loop without a final event: a value of the wrong JSON type where the message
  is read, an id no set can hold, a frame nested too deeply for `json.loads`, or a database error in
  `publish_call` or `take_result`. `Escapes` is the exact condition on the loop's variables and the input
  (`CodexTurn.EscapesIff`, `ClaudeTurn.EscapesIff`), a turn ends that way exactly when it reaches such an
  input (`CodexTurn.TurnEndsIff`, `ClaudeTurn.TurnEndsIff`), and one short line is enough
  (`CodexTurn.MalformedCompletionCrashes`, `ClaudeTurn.MalformedResponseCrashes`).
- A Claude turn can report its usage twice, and the run's recorded usage is then doubled. A turn reports
  it at most twice, and twice exactly when it reaches a line whose first final item is a success while a
  terminal result is being stopped, the interrupt is not confirmed, and token counts are on record
  (`ClaudeTurn.UsageRepeatedIff`); two lines are enough (`ClaudeTurn.TwoLinesRepeat`).
- The Codex auth gate can open while the CLI may still be starting up: exactly when an attempt that
  still holds it at the end of its stream is itself cancelled while it awaits the stop of the CLI
  (`Attempt.Drive`, `Attempt.GateOpensSafely`). The program says so in a comment, for the in-API worker.
- `model_observed_best` is documented as first seen within the strongest kind. It is that exactly when no
  later model of that kind took the place of a weaker entry that stood before it in a full list
  (`Evidence.BestIsFirstIff`); an eleven-model stream where it is not is `Evidence.ElevenModels`.
  `model_served` always is the first response (`Evidence.ServedIsFirstResponse`).
- A time slice is the front of the whole list exactly when no group is visibly cut
  (`RequestList.SliceIsFrontIff`). A direct request whose attempts lie further apart than the one-day
  margin, or an attempt long before its job was created, puts half a request on the page
  (`RequestList.WideRequestIsCut`, `RequestList.EarlyAttemptIsCut`).
- A storm threshold below one key does not mean "at least that many keys": a provider whose keys are
  all stale is left out (`Circuit.ZeroThresholdForgets`, exact answer in `Circuit.AnswersAreTheLogs`).

## Model

| member | source | states |
|---|---|---|
| `RunLog.RunRows.Read` | src/aibroker/agent/runs.py:252-265 | a writer's first phase: it snapshots `last_seq` and gets through only on an unfinished run |
| `RunLog.RunRows.Commit` | src/aibroker/agent/runs.py:287-383 | the second phase: the event goes in under `last_seq + 1` read earlier, or nothing changes because that key is taken |
| `RunLog.LogTheorem` | src/aibroker/agent/runs.py:245-383 | under every interleaving of writers (append, park, requeue, cancel, sweeps): the log is exactly 1..`last_seq`, holds at most one terminal event, nothing follows it, and `outcome` is that event's |
| `RunLog.AppendOnly` | src/aibroker/db/models.py:335-339 | no later step rewrites a stored event, and the first terminal event and outcome stay for good |
| `RunLog.OnlyIfPendingStaysPending` | src/aibroker/agent/runs.py:255-260 | an `only_if_pending` writer and a claim exclude each other from its check to its commit |
| `RunLog.LifecycleTheorem` | src/aibroker/agent/runs.py:325-401 | in every reachable state in which requeues meet unfinished runs, `outcome` is set exactly when the queue status is terminal and the two agree |
| `RunLog.RequeueKeepsAgreementIff` | src/aibroker/agent/runs.py:423-436 | a requeue keeps outcome and status in agreement if and only if the run is unfinished |
| `RunLog.UnguardedRequeueReopens` | src/aibroker/agent/runs.py:423-436 | a concrete interleaving in which a requeue leaves a failed run pending |
| `RunStatus.StoredIff` | src/aibroker/agent/runs.py:287-298 | a commit stores its event exactly when nobody stored one since its read; otherwise the rows stay as they are |
| `RunStatus.AppendMeans` | src/aibroker/agent/runs.py:279-383 | at every reachable state: an append stores the event it brings, but `run.failed` for a completion with a broken output format; which outcome and queue status each final event leaves, and that others leave both |
| `RunStatus.ParkMeans` | src/aibroker/agent/runs.py:439-465 | a quota wait stores `run.waiting_quota`, counts one wait more and puts an unfinished run back to pending |
| `RunStatus.RequeueMeans` | src/aibroker/agent/runs.py:423-436 | a requeue puts the run back to pending, counts one retry more than it read, and writes no event |
| `RunStatus.RunningIff` | src/aibroker/agent/runs.py:423-465 | in every reachable state an unfinished run is running exactly when a claim took it and no quota wait or requeue put it back since; otherwise it is pending |
| `RunStatus.ParkedWaitsForItsClaim` | src/aibroker/agent/runs.py:439-465 | while `run.waiting_quota` is the last event and nobody claimed the run since, it is unfinished and pending, and a claim that meets no lock takes it |
| `RunStatus.CancelRequestedIff` | src/aibroker/agent/runs.py:386-401 | the cancel flag is set exactly once somebody asked for it while the run was out of the queue and unfinished |
| `Lease.LeaseRow.AcquireLease` | src/aibroker/agent/lock.py:82-101 | a free or expired row is taken with the next fence number; otherwise nothing changes |
| `Lease.LeaseRow.RenewLease` | src/aibroker/agent/lock.py:104-113 | succeeds exactly for the holder's run and token, and then only extends the lease |
| `Lease.LeaseRow.ReleaseLease` | src/aibroker/agent/lock.py:116-124 | the holder's row expires in place and keeps its fence |
| `Lease.FenceTheorem` | src/aibroker/agent/lock.py:82-142 | for every interleaving of any number of workers: tokens are strictly increasing, the row's fence is the last one, and after a token was handed out no write carrying an earlier one commits |
| `Lease.WriteIsCurrent` | src/aibroker/agent/lock.py:127-142 | every committed write carries a token that was really handed out, with no acquisition in between |
| `Lease.RunSound` | src/aibroker/agent/lock.py:82-142 | the row's fence never decreases |
| `Lease.TakeoverIff` | src/aibroker/agent/lock.py:82-101 | who asks for a held session gets it, with the next token, exactly when its time is over, whatever refused attempts came between |
| `Lease.ReleasedIsFree` | src/aibroker/agent/lock.py:116-124 | a session its holder released goes to the next one who asks, with the next token |
| `Lease.HolderMeans` | src/aibroker/agent/lock.py:104-142 | a renewal holds the session for its time to live from then on; another token neither prolongs nor frees it nor opens a fenced write |
| `FencedLog.NoEventOfEarlierHolder` | src/aibroker/agent/runs.py:252-298 | in every interleaving of takeovers, renewals, leased and unleased writers: once a token is in force, no event of an earlier holder enters the log |
| `FencedLog.HoldersInOrder` | src/aibroker/agent/lock.py:127-142 | the leased events of a log stand in the order of their holders, and the log keeps everything said of it without leases |
| `Heartbeat.KeepAlive` | src/aibroker/agent/lock.py:145-172 | the heartbeat loop on the shared row computes the deadline and `lost` that `Beats` describes |
| `Heartbeat.DeadlineTheorem` | src/aibroker/agent/lock.py:145-172 | from the first successful renewal on, whatever others do, the local deadline is not later than `lease_until`, and whoever took the row took it after that deadline |
| `Heartbeat.ExclusiveUntilLost` | src/aibroker/agent/lock.py:145-172 | from the first successful renewal on: as long as `lost` is not set at the end of a round, nobody else acquired the session up to then |
| `Heartbeat.RefusedIsLost` | src/aibroker/agent/lock.py:145-172 | a round that was refused, whichever it was, leaves `lost` set when the loop is over |
| `Heartbeat.LostIff` | src/aibroker/agent/lock.py:145-172 | `lost` is set at the end exactly when some round that took place was refused or over only after its deadline |
| `Heartbeat.FirstDeadlineWithinIff` | src/aibroker/agent/lock.py:181-185 | the first deadline is within `lease_until` exactly when acquisition returned no later than its database time |
| `ToolHandoff.Mailbox.PublishCall` | src/aibroker/agent/client_tools.py:113-156 | the transaction's new row and reply, for every state and every refusal |
| `ToolHandoff.Mailbox.SubmitResult` | src/aibroker/agent/client_tools.py:159-199 | the same for a client's submission: accepted, repeated, conflicting, too large, unknown |
| `ToolHandoff.Mailbox.TakeResult` | src/aibroker/agent/client_tools.py:202-234 | the same for the worker's poll: taken into the history, not yet, cancelled, conflict |
| `ToolHandoff.Mailbox.ClearPendingCall` | src/aibroker/agent/client_tools.py:237-250 | an unanswered call is withdrawn, everything else stays |
| `ToolHandoff.ExactlyOnce` | src/aibroker/agent/client_tools.py:113-250 | at every point of every interleaving an acceptance is the first of its call id, and a take hands out exactly the accepted result, once |
| `ToolHandoff.AcceptedIsDelivered` | src/aibroker/agent/client_tools.py:202-234 | an accepted result reaches the worker at any later time, past the deadline too, unless the run stopped or was cancelled |
| `ToolHandoff.RetriesAreIdempotent` | src/aibroker/agent/client_tools.py:159-199 | repeating an accepted submission answers False, a different one conflicts, neither changes the row |
| `ToolHandoff.HistoryTheorem` | src/aibroker/agent/client_tools.py:113-250 | history ids are distinct and at most 16; a result taken as terminal was a success of a declared terminal tool |
| `ToolHandoff.AcceptedForever` | src/aibroker/agent/client_tools.py:159-250 | nothing that happens later changes an accepted result |
| `HandoffMeaning.AcceptedIff` | src/aibroker/agent/client_tools.py:159-199 | after a publish at time t, and anything but a withdrawal, a cancel or the end since (parking and a new claim included), a first result is accepted exactly when project and call id are right, it has at most 65536 bytes, `now < t + wait`, and a terminal one is a success of a declared terminal tool |
| `HandoffMeaning.AcceptedThenTaken` | src/aibroker/agent/client_tools.py:159-234 | it is then recorded for that call and tool, and the next poll hands out this very answer |
| `HandoffMeaning.PollMeans` | src/aibroker/agent/client_tools.py:202-234 | a poll before the first result answers not yet up to the deadline and a conflict from it on, a lost lease before both |
| `HandoffMeaning.OneAtATime` | src/aibroker/agent/client_tools.py:147-151 | while a call waits for its first result no other is published |
| `HandoffMeaning.WithdrawnIsClosed` | src/aibroker/agent/client_tools.py:237-250 | after a waiting call was withdrawn a result of it is neither accepted nor repeated, and nothing is pending |
| `HandoffMeaning.PublishMeans` | src/aibroker/agent/client_tools.py:113-156 | at every reachable state: when a call is published, when its arguments are sent back and when the lease is stale, by the id, sizes, verdict, job and the takes so far |
| `HandoffMeaning.SubmitMeans` | src/aibroker/agent/client_tools.py:159-187 | at every reachable state: too large first, then the wrong project, and `False` exactly for the result accepted before; only an acceptance changes the row |
| `HandoffMeaning.TakeMeans` | src/aibroker/agent/client_tools.py:202-234 | at every reachable state: a stale lease first, a cancelled job next, and a result exactly when one was accepted and not taken yet |
| `HandoffMeaning.StatusMeans` | src/aibroker/agent/client_tools.py:120-127 | the row is running exactly when a claim came after the last parking and nothing closed it, cancelled exactly when somebody asked |
| `TurnLaw.EndedMeans` | src/aibroker/agent/codex_app_server.py:181-355 | a lawful turn that ended has exactly one final event, last; one that did not has none |
| `TurnLaw.NoCallAfterTerminalResult` | src/aibroker/agent/claude_tool_turn.py:223-273 | no call is published or rejected after a terminal result, and no call id is used twice in a turn |
| `TurnLaw.CompletionMeans` | src/aibroker/agent/codex_app_server.py:311-350 | a completed turn called a required tool before, and after a terminal result it has a confirmed interrupt and an empty text |
| `TurnLaw.WithinBudgets` | src/aibroker/agent/codex_app_server.py:249-337 | rejection replies and reminders never exceed their budgets |
| `TurnLaw.EndsSoIff` | src/aibroker/agent/codex_app_server.py:181-355 | any such loop ends irregularly exactly when an input it reaches makes it so |
| `TurnLaw.PublishedAnswered` | src/aibroker/agent/codex_app_server.py:246-287 | every call a lawful turn published was answered later, except the one still with the client |
| `CodexTurn.RunToolTurn` | src/aibroker/agent/codex_app_server.py:181-355 | for every message stream the turn is lawful, its acts and its end are the ones `TurnActs` and `EndOf` describe, and it has one final event, last, unless an error or a lost lease leaves the loop, and then none |
| `CodexTurn.EscapesIff` | src/aibroker/agent/codex_app_server.py:210-355 | an input makes an uncaught error leave the loop exactly when `Escapes` holds of it and the loop's variables, and a lost lease exactly when `LosesLease` does |
| `CodexTurn.TurnEndsIff` | src/aibroker/agent/codex_app_server.py:181-355 | a turn crashes, or stops for a lost lease, exactly when it reaches such an input |
| `CodexTurn.MalformedCompletionCrashes` | src/aibroker/agent/codex_app_server.py:311-313 | a `turn/completed` whose params are a number crashes every turn it opens |
| `CodexTurn.CleanEnds` | src/aibroker/agent/codex_app_server.py:351-355 | a stream of well-shaped messages, without database errors and lost leases, always ends with a final event |
| `CodexTurn.CooperativeCompletes` | src/aibroker/agent/codex_app_server.py:181-350 | with a server that follows the protocol the turn completes, with the conversation's text or, after a terminal result, none |
| `CodexTurn.OnMessage` | src/aibroker/agent/codex_app_server.py:210-350 | one message: exact acts, variables and verdict; it crashes exactly when `Escapes` says so |
| `CodexTurn.OnToolCall` | src/aibroker/agent/codex_app_server.py:233-287 | a tool call: exact acts and verdict for every check, reply of the handoff and failing write |
| `CodexTurn.OnTurnCompleted` | src/aibroker/agent/codex_app_server.py:311-350 | exact acts and verdict of `turn/completed`: usage and answer, a reminder within the budget, or a failure |
| `CodexProtocol.TurnCancelledIff` | src/aibroker/agent/codex_app_server.py:246-355 | over whole streams: the last act is `run.cancelled` if and only if some input reached asks for a call with arguments, is published, and the job is cancelled while the worker waits |
| `CodexProtocol.TurnCompletedIff` | src/aibroker/agent/codex_app_server.py:311-350 | the last act is `run.completed` with a text if and only if some input reached is a `turn/completed` that may end the turn with that text, by its fields and the turn's state |
| `CodexProtocol.TurnFailedIff` | src/aibroker/agent/codex_app_server.py:181-355 | and `run.failed` if and only if the loop ends regularly and neither is so |
| `CodexProtocol.ToolResultIff` | src/aibroker/agent/codex_app_server.py:270-287 | a tool result is shown with `success` if and only if some input reached hands over an answer with that very mark, or sends broken arguments back as a failure |
| `CodexProtocol.NoResultMeans` | src/aibroker/agent/codex_app_server.py:352-355 | a published call whose wait is cancelled ends in `run.cancelled`, one that expired or lost its process in `run.failed` |
| `CodexProtocol.AnsweredMeans` | src/aibroker/agent/codex_app_server.py:262-287 | an answered call: the acts one by one, and a stop within thirty seconds after a terminal answer |
| `CodexProtocol.SentBackMeans` | src/aibroker/agent/codex_app_server.py:249-260 | broken arguments go back to the model within the budget, and fail the turn past it |
| `CodexProtocol.StartedMeans` | src/aibroker/agent/codex_app_server.py:223-230 | the reply to the pending `turn/start` starts the turn and nothing else |
| `CodexProtocol.FirstReplyStarts` | src/aibroker/agent/codex_app_server.py:181-230 | the first one is the reply to request 3 |
| `CodexProtocol.ConfirmedMeans` | src/aibroker/agent/codex_app_server.py:212-219 | a reply to request 1000 confirms a pending interrupt, once |
| `CodexProtocol.EndMeans` | src/aibroker/agent/codex_app_server.py:311-350 | a turn that may end completes, with its text or, stopped, with none; one that missed a required call is reminded under the next request id |
| `CodexProtocol.UnexpectedMeans` | src/aibroker/agent/codex_app_server.py:210-355 | every other message or moment fails the turn, unless it makes an error leave the loop |
| `ClaudeTurn.RunToolTurn` | src/aibroker/agent/claude_tool_turn.py:152-340 | the same for the Claude Code loop |
| `ClaudeTurn.TurnLawful` | src/aibroker/agent/claude_tool_turn.py:152-340 | the acts described for any stream obey the law, and end with a final event exactly when the turn ends regularly |
| `ClaudeTurn.EscapesIff` | src/aibroker/agent/claude_tool_turn.py:184-340 | an input makes an uncaught error leave the loop exactly when `Escapes` holds, and a lost lease exactly when `LosesLease` does |
| `ClaudeTurn.TurnEndsIff` | src/aibroker/agent/claude_tool_turn.py:152-340 | a turn crashes, or stops for a lost lease, exactly when it reaches such an input |
| `ClaudeTurn.MalformedResponseCrashes` | src/aibroker/agent/claude_tool_turn.py:188-192 | a `control_response` whose response is a number crashes every turn it opens |
| `ClaudeTurn.CleanEnds` | src/aibroker/agent/claude_tool_turn.py:328-340 | a stream of well-shaped lines, without database errors and lost leases, always ends with a final event |
| `ClaudeTurn.CooperativeCompletes` | src/aibroker/agent/claude_tool_turn.py:152-326 | with a CLI that follows the protocol the turn completes, with its result text or, after a terminal result, none |
| `ClaudeTurn.OnToolCall` | src/aibroker/agent/claude_tool_turn.py:223-273 | a `tools/call`: exact acts and verdict for every check, reply of the handoff and failing write |
| `ClaudeTurn.SendBack` | src/aibroker/agent/claude_tool_turn.py:236-267 | broken arguments: exact acts; returned to the model exactly while the budget and the pipe allow |
| `ClaudeTurn.OnFinalWhileStopped` | src/aibroker/agent/claude_tool_turn.py:288-308 | the exact acts of a final line after a terminal result, for every state of the interrupt, the counts and the errors |
| `ClaudeTurn.OnlyInterruptedIff` | src/aibroker/agent/claude_tool_turn.py:95-101 | an interrupted CLI's result is clean exactly when, on the line's fields: the terminal reason is one of the two aborts, there is no API error status, no result text, and every error starts with the diagnostic mark |
| `ClaudeProtocol.StoppedMeans` | src/aibroker/agent/claude_tool_turn.py:288-310 | in a stopped and confirmed turn a final item completes the run with no text if and only if it is a success or its line says so; else it fails |
| `ClaudeProtocol.UnconfirmedMeans` | src/aibroker/agent/claude_tool_turn.py:288-310 | while the interrupt is not confirmed a final item fails the turn |
| `ClaudeProtocol.SuccessMeans` | src/aibroker/agent/claude_tool_turn.py:311-326 | a success ends an unstopped turn with its text, or reminds of a required call, or fails |
| `ClaudeProtocol.TurnCancelledIff` | src/aibroker/agent/claude_tool_turn.py:233-340 | over whole streams: the last act is `run.cancelled` if and only if some line reached calls a tool, is published, and the job is cancelled while the worker waits |
| `ClaudeProtocol.TurnCompletedIff` | src/aibroker/agent/claude_tool_turn.py:275-327 | the last act is `run.completed` with a text if and only if some line reached holds the final item that answers with it |
| `ClaudeProtocol.TurnFailedIff` | src/aibroker/agent/claude_tool_turn.py:152-340 | and `run.failed` if and only if the loop ends regularly and neither is so |
| `ClaudeProtocol.ToolResultIff` | src/aibroker/agent/claude_tool_turn.py:233-267 | a broker tool's result is shown with `success` if and only if some line reached hands over an answer with that very mark, or sends broken arguments back as a failure |
| `ClaudeProtocol.NoResultMeans` | src/aibroker/agent/claude_tool_turn.py:328-340 | a published call whose wait is cancelled ends in `run.cancelled`, one that expired or lost its process in `run.failed` |
| `ClaudeProtocol.AnsweredMeans` | src/aibroker/agent/claude_tool_turn.py:240-273 | an answered call: the acts one by one, and a stop within thirty seconds after a terminal answer |
| `ClaudeProtocol.GrantedMeans` | src/aibroker/agent/claude_tool_turn.py:188-198 | the two control replies the loop expects: one changes nothing, the other confirms a pending interrupt, once |
| `ClaudeProtocol.UnexpectedMeans` | src/aibroker/agent/claude_tool_turn.py:188-274 | every other control line, a late one or an unreadable value fails the turn, unless it makes an error leave the loop |
| `ClaudeTurn.ItemUsages` | src/aibroker/agent/claude_tool_turn.py:288-327 | one item reports usage at most twice, and twice exactly for a success with counts on record while the stop is unconfirmed; an item after which the turn goes on reports none |
| `ClaudeTurn.UsageRepeatedIff` | src/aibroker/agent/claude_tool_turn.py:152-340 | a whole turn reports usage at most twice, and twice exactly when it reaches such a line |
| `ClaudeTurn.UsageRepeated` | src/aibroker/agent/claude_tool_turn.py:288-308 | any call answered with a terminal result, followed by usage and success before the interrupt is confirmed, ends in usage, usage, failure |
| `ClaudeTurn.TwoLinesRepeat` | src/aibroker/agent/claude_tool_turn.py:288-308 | the same with both lines written out |
| `ServedTurn.TurnDelivers` | src/aibroker/agent/client_tools.py:113-250 | for every stream and every interleaving of clients, retries, deadlines, cancels and others with the turn, each answer handed to the model is the result accepted for that very call, taken once, and in the history at the end; while nobody else publishes a call of that id, it is a result for the tool the model called |
| `ServedTurn.CodexTurnServed` | src/aibroker/agent/codex_app_server.py:246-287 | so it is for every Codex turn |
| `ServedTurn.ClaudeTurnServed` | src/aibroker/agent/claude_tool_turn.py:233-267 | and for every Claude turn |
| `ServedTurn.CompletedTurnServed` | src/aibroker/agent/client_tools.py:202-234 | a completed turn leaves nothing open: each call it published was answered with its accepted result, for its tool, and is in the history |
| `Attempt.Drive` | src/aibroker/agent/executor.py:322-427 | for every environment, cancellation of a stop included, the attempt's acts are lawful and the gate is not left held; the gate opens unsafely exactly when a stop is cut short while it is held; a refused or unattested attempt never starts the CLI; and as long as no write is refused its log is exactly the one `LogOf` spells out, up to the closing event |
| `Attempt.Stream` | src/aibroker/agent/executor.py:470-574 | the stream loop keeps the law tick by tick and hands the gate back on every way out but one: it is still held exactly when no model call was proven and the stop was cut short |
| `Attempt.CalmMeans` | src/aibroker/agent/executor.py:493-530 | the tick that ends a stream is the first with a lost lease, a gate lost before any proven model call, no time left, a cancellation, an ended queue or a final item |
| `Attempt.ItemsMeans` | src/aibroker/agent/executor.py:514-539 | every progress item before it is written, once and in order, and nothing else |
| `Attempt.StartNeedsAttestation` | src/aibroker/agent/executor.py:338-427 | the CLI starts only after the attestation was written |
| `Attempt.GateOpensSafely` | src/aibroker/agent/executor.py:498-564 | an opening of the gate after the CLI was started, with neither a proven model call nor an awaited stop before it, happens if and only if the stop was cut short before it |
| `Attempt.EarlyIff` | src/aibroker/agent/executor.py:544-564 | the monitor of an attempt tells exactly the unsafe openings |
| `Attempt.WritesAttested` | src/aibroker/agent/executor.py:338-427 | in an attempt's writes each adapter event, completion and quota wait follows `run.started` and then `billing.attested`; nothing follows a closing event |
| `Attempt.RunLogAttested` | src/aibroker/agent/executor.py:338-427 | the same in the run's whole log, however its attempts interleave |
| `AuthGate.RefreshProof.RecordCall` | src/aibroker/agent/codex_refresh_proof.py:35-42 | a proof is kept exactly when the timestamp was readable and unchanged |
| `AuthGate.RefreshProof.CoversStamp` | src/aibroker/agent/codex_refresh_proof.py:44-54 | answers the covering condition, window and maximum age included |
| `AuthGate.RefreshProof.Drop` | src/aibroker/agent/codex_refresh_proof.py:56-57 | nothing is proven afterwards |
| `AuthGate.CoversIff` | src/aibroker/agent/codex_refresh_proof.py:28-57 | after any history, a timestamp is covered exactly when the recording in force saw it unchanged within the window and it is below the maximum age |
| `AuthGate.UngatedIff` | src/aibroker/agent/executor.py:220-233 | a start-up skips the gate if and only if the refresh is readable and younger than the due age, or below the maximum age, unchanged and proven within the window |
| `AuthGate.TakeGate` | src/aibroker/agent/executor.py:234-246 | the retry loop: the first poll that finds the lease free, the run cancelled or the time over decides |
| `QuotaWait.AttemptsAreBounded` | src/aibroker/agent/executor.py:186-193 | for every history: quota waits fit the deadline one gap apart (fewer than deadline/5 as shipped), requeues stop one past the cap, claims are bounded by both |
| `QuotaWait.ParkIsWithinDeadline` | src/aibroker/agent/executor.py:294-319 | a wait lasts at least the gap, ends before the deadline and after the reported reset; the run fails only when it would not |
| `QuotaWait.DelayMeans` | src/aibroker/agent/executor.py:299-309 | the wait ends five seconds past a reported reset, or past now when that is over; without one it doubles from the base up to the cap |
| `QuotaWait.StepsMean` | src/aibroker/agent/executor.py:309-319 | a quota hit parks until the wait is over or closes past the deadline; a busy session puts the run back or closes it past the cap; nobody claims a run before its time |
| `Lane.EffectiveReserve` | src/aibroker/agent/worker.py:75-78 | never all slots, none with one slot or without a setting, the setting itself when it fits |
| `Lane.Queue.ClaimAgentRuns` | src/aibroker/agent/worker.py:81-107 | the claimed runs are distinct, eligible and unlocked, come first in claim order, are as many as the limit allows, and exactly they become running |
| `Lane.Queue.ClaimForLane` | src/aibroker/agent/worker.py:110-120 | one tick: any priority for the unreserved slots, interactive only for the rest, with other sessions' commits in between |
| `Lane.ClaimTakes` | src/aibroker/agent/worker.py:88-104 | a claim takes only the lane's own pending, unlocked runs whose time has come, and all of them while the limit allows |
| `Lane.ClaimPrefers` | src/aibroker/agent/worker.py:101-103 | in the order of the priority number and, within a priority, of age, leaving out none that comes before one it takes |
| `Lane.LaneTheorem` | src/aibroker/agent/worker.py:271-278 | over every sequence of ticks and completions at most c runs are in flight and at most c minus the reserve are batch |
| `Lane.InteractiveFirst` | src/aibroker/agent/worker.py:110-120 | an interactive run that every claim of the tick could have taken (the second alone, when no unreserved slot is free) stays pending only if every free slot went to an interactive one |
| `Lane.NoIdleSlot` | src/aibroker/agent/worker.py:110-120 | unreserved slots are full while any claimable run is left |
| `Lane.TickDistinct` | src/aibroker/agent/worker.py:110-120 | one tick never starts a run twice |
| `Evidence.FoldObservation` | src/aibroker/agent/runs.py:198-219 | the in-place fold: known pair, room left, or replace the weakest if outranked |
| `Evidence.EvidenceTheorem` | src/aibroker/agent/runs.py:198-219 | for every stream: at most ten distinct entries, the strongest kind ever seen kept, and the whole stream deduplicated when nothing was cut |
| `Evidence.ServedIsFirstResponse` | src/aibroker/agent/runs.py:222-242 | a non-null `model_served` is the model of the stream's first response observation |
| `Evidence.ServedIff` | src/aibroker/agent/runs.py:222-242 | for every stream: the first response is reported exactly when nothing was cut or every response listed at the end names its model, and without a response nothing is |
| `Evidence.CutIff` | src/aibroker/agent/runs.py:198-219 | the list is cut exactly when an eleventh pair of kind and model was observed |
| `Evidence.FoldKeepsFirst` | src/aibroker/agent/runs.py:198-213 | the first response observation is never evicted |
| `Evidence.BestIsFirstIff` | src/aibroker/agent/runs.py:222-242 | for every stream: the best entry is the first seen of the strongest kind exactly when no later model of that kind displaced it |
| `Evidence.BestStep` | src/aibroker/agent/runs.py:198-213 | what one observation does to the best entry, exactly: a stronger kind or a displacing one replaces it, nothing else |
| `Evidence.UncutBestIsFirst` | src/aibroker/agent/runs.py:222-242 | as long as nothing was dropped or evicted the best entry is the first seen of its kind |
| `Evidence.BestNeedNotBeFirstSeen` | src/aibroker/agent/runs.py:210-212 | after ten models with a session_init before the first thread_config, a new thread_config becomes the best entry of the whole stream |
| `Evidence.ElevenModels` | src/aibroker/agent/runs.py:210-212 | such a stream, concretely |
| `RequestList.QueryNewest` | src/aibroker/routes/dashboard_requests.py:385-402 | for every filter and page the loop's answer is exactly the first slice that fills the page, else the whole; it equals the unsliced page and `has_more` whenever no slice tried cuts a group visibly, as in every well spaced table |
| `RequestList.SliceIsFrontIff` | src/aibroker/routes/dashboard_requests.py:295-337 | the ordered slice is the front of the ordered whole if and only if no group is visibly cut |
| `RequestList.SliceMembersIff` | src/aibroker/routes/dashboard_requests.py:205-244 | the slice's rows are the whole's rows from the cut on if and only if no group is visibly cut |
| `RequestList.SameGroupIff` | src/aibroker/routes/dashboard_requests.py:205-210 | the slice has a request's whole group exactly when none of its attempts is older than the margin |
| `RequestList.WellSpacedNoneCut` | src/aibroker/routes/dashboard_requests.py:205-210 | in a table where direct requests span at most the margin and no attempt precedes its job, no slice cuts a group visibly |
| `RequestList.SliceMembers` | src/aibroker/routes/dashboard_requests.py:205-244 | a row whose group is not visibly cut is in the slice exactly when it is in the whole and starts at or after the cut |
| `RequestList.RowsMembers` | src/aibroker/routes/dashboard_requests.py:279-337 | the grouped, joined and filtered query has exactly the rows its declarative description names |
| `RequestList.RowsDistinct` | src/aibroker/routes/dashboard_requests.py:295-337 | no request is listed twice |
| `RequestMeaning.StatusMeans` | src/aibroker/routes/dashboard_requests.py:86-92 | at the query: a listed row is under "failed" exactly when its job is in error, or its job has none of the five states and no attempt is ok; and the like for "ok", "cancelled", "pending" and "running" |
| `RequestMeaning.OneStatus` | src/aibroker/routes/dashboard_requests.py:284-287 | every row is listed under exactly one of the five, and under them nothing else |
| `RequestMeaning.ProviderMeans` | src/aibroker/routes/dashboard_requests.py:273-277 | a row answers to a provider by one of its attempts, or as an agent run by its own report |
| `RequestMeaning.ModelMeans` | src/aibroker/routes/dashboard_requests.py:273-277 | and to a model, with a provider in the same attempt |
| `RequestMeaning.KindMeans` | src/aibroker/routes/dashboard_requests.py:218-223 | "job" and "direct" part the rows by the request key, "agent" keeps the agent runs without attempts |
| `RequestMeaning.LabelMeans` | src/aibroker/routes/dashboard_requests.py:126-137 | a label selects the rows whose job carries it, under the key asked for or under either |
| `RequestMeaning.AttemptListedIff` | src/aibroker/routes/dashboard_requests.py:205-217 | an attempt is listed exactly when it is in the window and of the project, workflow and capability asked for |
| `RequestMeaning.JobListedIff` | src/aibroker/routes/dashboard_requests.py:238-271 | a job is listed without attempts exactly when it has none, is in the window, of the project and capability, and no workflow is asked for |
| `RequestMeaning.RowMeans` | src/aibroker/routes/dashboard_requests.py:295-330 | a row holds the attempts of one request key and the job the key names |
| `RequestMeaning.NewestMeans` | src/aibroker/routes/dashboard_requests.py:385-402 | the page shown is rows `page * size` on of the listing of all rows, newest first and equal times by falling key, and another page is announced exactly when rows are left |
| `RequestList.WideRequestIsCut` | src/aibroker/routes/dashboard_requests.py:205-210 | a concrete table with a direct request wider than the margin and a page of one row that differs from the unsliced one |
| `RequestList.EarlyAttemptIsCut` | src/aibroker/routes/dashboard_requests.py:238-244 | the same for an attempt long before its job was created, while all direct requests are narrow |
| `Base64.RoundTrip` | src/aibroker/agent/job_files.py:38-45 | decoding an encoding gives the bytes back (section 4 of RFC 4648) |
| `Base64.ExactIff` | src/aibroker/agent/job_files.py:38-45 | a text decodes exactly to some bytes if and only if it is their encoding |
| `Base64.ExactAcceptsCanonical` | src/aibroker/agent/job_files.py:38-45 | the exact decoder accepts exactly the canonical texts (section 3.5 of RFC 4648) |
| `Base64.EncodeThree` | src/aibroker/agent/job_files.py:38-45 | three bytes are one number, written as its four digits to the base 64 |
| `Base64.GlyphsMean` | src/aibroker/agent/job_files.py:38-45 | the digits are the ranges A-Z, a-z, 0-9 and the last two of table 1 of RFC 4648 |
| `JobFiles.FileTable.StoreFiles` | src/aibroker/agent/job_files.py:58-86 | the job's rows are exactly the moved files with digest, mime, size, expiry and bytes, other jobs' rows stay, and each entry refers to its row |
| `JobFiles.FileTable.LiveFiles` | src/aibroker/agent/job_files.py:106-131 | each file is shown with the bytes its reference points to |
| `JobFiles.ServedAlike` | src/aibroker/agent/job_files.py:97-131 | for every file and time, serving after the move equals serving inline |
| `JobFiles.OthersServedAlike` | src/aibroker/agent/job_files.py:58-86 | storing one job's files changes no other job's files as served |
| `JobFiles.StoreThenServe` | src/aibroker/agent/job_files.py:58-131 | the whole path on the table object gives the inline result |
| `JobFiles.MovesIff` | src/aibroker/agent/job_files.py:58-86 | the bytes of a file move exactly when its content is the non-empty base64 of them and its name has a known type; the row and the entry then, field by field |
| `JobFiles.LiveMeans` | src/aibroker/agent/job_files.py:106-131 | an entry with a reference shows the bytes of that row of the job, or none without such a row, and keeps its other fields |
| `JobFiles.InlineMeans` | src/aibroker/agent/job_files.py:89-104 | past its time of expiry, in the order of texts, a file is served without bytes and marked expired; else as it is |
| `Circuit.Breaker.NoteTimeout` | src/aibroker/routing/circuit.py:49-53 | both rings record the key |
| `Circuit.Breaker.NoteEmptyBody` | src/aibroker/routing/circuit.py:84-86 | the provider's ring records the key |
| `Circuit.Breaker.RecentTimeoutKeyIds` | src/aibroker/routing/circuit.py:56-61 | the stale keys are deleted and the rest answered |
| `Circuit.Breaker.ProvidersInTimeoutStorm` | src/aibroker/routing/circuit.py:64-81 | every bucket is pruned, empty ones dropped, storming providers of the scope answered |
| `Circuit.Breaker.ProvidersInEmptyStorm` | src/aibroker/routing/circuit.py:89-112 | the same for empty bodies |
| `Circuit.AnswersAreTheLogs` | src/aibroker/routing/circuit.py:49-112 | for every history under a monotone clock, the three answers are those of the full log (a provider needs at least one fresh key) |
| `Circuit.QueriesAreInvisible` | src/aibroker/routing/circuit.py:56-112 | a history answers as its notes alone would: no query changes a later answer |
| `Circuit.ZeroThresholdForgets` | src/aibroker/routing/circuit.py:64-81 | with a threshold of zero a provider without fresh keys is not listed |
| `Ceilings.ObservationTable.RecordTooLarge` | src/aibroker/providers/observations.py:42-74 | the upsert, refusals and failed writes included |
| `Ceilings.ObservationTable.LearnedCeilings` | src/aibroker/providers/observations.py:28-39 | exactly the providers with a fresh ceiling, with that ceiling |
| `Ceilings.CeilingTheorem` | src/aibroker/providers/observations.py:24-74 | after any log the ceiling is the least counted rejection since the last gap longer than the TTL, not below the floor, and fresh exactly while the newest rejection is |
| `Ceilings.StreakExists` | src/aibroker/providers/observations.py:62-71 | the rejections since the last gap are well defined for every log |
| `Images.ExportGenerated` | src/aibroker/agent/images.py:93-169 | truthful, distinct, within size, count and budget; a refused image is named by its call id only; budget refusals are real; below the count nothing is lost |
| `Images.CollectOut` | src/aibroker/agent/images.py:263-293 | the same for out/, with at most 20 listed rejections and nothing already reported by path or digest |
| `Images.CollectRunImages` | src/aibroker/agent/executor.py:423-464 | both collectors together stay within the run's byte budget and never deliver one digest twice; the out/ images are also none of the ordinary files' bytes |
| `Images.ExportDelivers` | src/aibroker/agent/images.py:117-166 | whatever the export delivers is the content of a new regular PNG inside the thread's directory, within the limit and decodable |
| `Images.OutDelivers` | src/aibroker/agent/images.py:263-293 | and under out/ of a safely opened file at that path, within the limit and decodable as its extension claims |
| `Images.ExportLosesNothing` | src/aibroker/agent/images.py:117-166 | while there is room every such PNG is delivered, a duplicate or listed for the budget, and a too large one is listed with its size |
| `Images.OutLosesNothing` | src/aibroker/agent/images.py:236-293 | while there is room every new file under out/ is delivered, a duplicate, or listed with its size and its reason |

## Left out

- SQL text, SQLAlchemy, sessions and isolation levels: transactions are modelled by their meaning on rows and the locks they hold.
- Subprocesses, stdio, signals, sockets and HTTP: they appear as arbitrary message streams, refused writes and raised calls.
- Handshake, preflight and argument building of the two CLIs: the turn models begin at the message loop.
- JSON Schema validation and the output-format check: given verdicts per call.
- Text that is no valid Unicode (a lone surrogate makes an event or a write fail, which both loops report as a failure) and cancellation of the turn's own task.
- The CLI output parser of a Claude turn: its items are an arbitrary list per line; token sums of usage are reduced to "has counts".
- `create_run`, idempotency keys, `record_usage`, redaction, clipping and the heartbeat_at column: no state the proved properties turn on.
- Cancelling an attempt's own task elsewhere than in the awaited stop: it ends the attempt like any raised error, and nothing more is written.
- QuotaWait.AttemptsAreBounded: takes `requeue_run` and the failure past its cap as one step, and a requeue only on an unfinished run, because a worker killed between the two writes leaves the run claimable once more.
- QuotaWait.ParkIsWithinDeadline: waits are exact reals; the program's `2 ** quota_waits` raises OverflowError as a float from 1024 waits on when no reset time is reported, and such an attempt neither parks nor fails.
- Attempt.RunLogAttested: takes each attempt's writes as those of lawful acts, which `Attempt.Drive` provides; a sweep or a cancel counts as an attempt of its own that writes one closing event.
- Heartbeat.DeadlineTheorem: equal clock rates and a request start not after the database's time of the statement are premises.
- RequestList.QueryNewest: the exact condition is proved for the slice; for one page it is sufficient only, since a cut beyond the page, or two that cancel out, does not show. The other sort orders, free-text search, CSV and detail pages are not modelled; they do not use slices.
- The extension table, SHA-256 and ISO times of stored files are parameters; a missing file list (`None`) is passed through unchanged by the program and not modelled.
- Json numbers are integers; floating-point values and duplicate keys are not modelled.
- Images.CollectOut: candidates are given in the order found; directory walks, symlink checks and image decoding are inputs.
- Images.CollectRunImages: that content of an exported image is never empty is not needed, since an empty one adds no bytes.
- Lane.Queue.ClaimAgentRuns: the priority of a row is 0 for interactive and larger for batch, as the writers store it.
- Provider specs, routing chains, pricing, dashboards, accounts, settings: short case analysis or data.
