# Protocols of a chat bot for terminal agents

This project models the crash-tolerant protocols of TelegramAgentBot, a bot that connects
chat topics with coding agents in terminal windows, and proves what they keep over every
run. Each protocol lives on a few small tables or files that survive a crash and some
memory that does not. The code between two awaits is one step; terminals, clocks, the
network and failing writes are observations that may turn out any way.

Every component has the same shape. Functions on values say what one operation does to
the state. A class holds the state in fields, as the program does, and its methods and
loops are proved equal to those functions. What an operation changes, and that it changes
nothing else, is stated once more on the fields themselves, without the functions. A step
system interleaves the operations of all tasks and processes, with failures and restarts,
and the main results are about all of its runs.

| file | what it is about |
|---|---|
| `PromptTable`, `PromptQueues`, `PromptLifecycle` | the prompt spool, the in-memory queues, and the senders, drainers, confirmations, discards and restarts that move its rows |
| `PromptAtMostOnce` | no prompt text is handed to an agent twice |
| `PromptRows`, `PromptMemory`, `PromptTasks` | what each event does to the rows of the spool, to the queues and confirmations in memory, and to the tasks |
| `PromptOrder`, `PromptOrderTasks`, `PromptOrderSteps`, `PromptOrderRuns`, `PromptRestart` | recovery, and the order of submissions to one target |
| `PromptRetarget` | a run of the program that breaks that order |
| `TranscriptReader` | incremental reading of an append-only transcript |
| `Delivery`, `DeliveryRuns` | the two cursors of transcript delivery: nothing is lost |
| `DeliveryReceipts` | what a run comes to for one recipient: which lines reach it, how often, and what its cursor stands for |
| `DeliverySchedules` | which schedules of file growth and polls lose a transcript line |
| `Ledger` | the spending ledger shared by processes |
| `RouteTable`, `Routing`, `RoutingFrames`, `SessionManager` | routes with generations, bindings and targets, shared topics, startup, the durable projection |
| `Bridge` | write-ahead dispatch of issues |
| `UpdateProcessor` | per-topic ordering and deduplication of updates |
| `Retries` | bounded automatic continuation |
| `Admission` | slots for concurrent turns |
| `Splitter`, `Fences` | cutting messages into chunks, and what it does to code blocks |
| `Basics` | small shared definitions |

## What turned out different from what one might expect

- Submissions to one target are not always in the order of acceptance. When a topic is
  bound to another window while a row waits for the confirmation of an earlier one, and the
  process restarts, the row is retargeted behind newer ones that the new window was already
  sent. `PromptRetarget.RetargetReorders` is such a run of the program;
  `PromptRestart.RestartOrderExact` gives the exact condition on a restart. No row is ever
  orphaned by it (`PromptRestart.NoRowOrphaned`).
- A poll that sees a complete object but not yet its newline consumes the object; the next
  poll takes the newline for a damaged offset and skips the line after it. That line is
  never delivered. `TranscriptReader.TwoPolls` and `DeliverySchedules.ScheduleExact` say
  exactly when, `DeliverySchedules.TornDelivery` is an input. If the group of the first poll
  is replayed instead, the object comes back with an offset one higher
  (`TranscriptReader.TornComesBack`), which no cursor has reached yet.
- All messages of one transcript line carry the same offset. A recipient that got the first
  of them is taken to have the others (`DeliveryRuns.SiblingsSkipped`), and a group that
  stops between them has already committed the line (`DeliverySchedules.SplitRun`).
- Usage-limit notices come first in a batch and commit nothing, so eight of them in one
  reading hold up everything behind them (`DeliverySchedules.NoticesStall`).
- A delivery fence reads the generation from the row of the asking user and the target from
  that of the topic's owner. It vouches for the owner's route exactly when the two are the
  same user (`Routing.FenceVouchesForOwner`); for anyone else who shares the topic it misses
  a change and a change back (`Routing.SharerFenceMissesChange`).
- The docstring of `split_message` promises chunks that are valid markdown on their own. The
  fence flag is flipped before the full chunk is pushed out, so a fence line that does not
  fit leaves its block open or closes one that is not. `Fences.BalancedExact` states exactly
  when the promise holds; `Fences.ClosingFenceComesTooLate` is an input.
- The status poller may forget a window whose prompt is just being sent; when the send is
  through the window takes a slot again without asking (`Admission.ForgottenWhileSending`).
  That, and a window without a slot seen active at the limit, are the only ways over the
  limit (`Admission.AdmissionBound`).
- The registry survives a restart unchanged under a weaker condition than unshared windows
  and complete cursors; `Routing.RegistryRoundTrip` states it exactly.
- Binding a window without a name breaks the dual-write rule (`Routing.BindAgrees`).
- Dropping a topic from one registry write forgets its generation
  (`RouteTable.RemovalForgetsGeneration`), so fences need the topic in every write.

## Model

| member | source | states |
|---|---|---|
| PromptTable.PromptStore.Enqueue | src/telegram_agent_bot/durable_state.py:445-486 | A prompt is accepted exactly while fewer rows than the limit stand for its target; the one new row, under an id never given out before, has its target and text and is queued |
| PromptTable.PromptStore.MarkSubmitted | src/telegram_agent_bot/durable_state.py:696-720 | The compare-and-set: reports a change exactly when the row was queued, which is then submitted under the same target and text; no other row changes |
| PromptTable.PromptStore.Confirm | src/telegram_agent_bot/durable_state.py:722-728 | The row goes exactly if it was submitted; every other row stays as it is |
| PromptTable.PromptStore.DeleteInputs | src/telegram_agent_bot/durable_state.py:730-739 | A row stays exactly if it is not named, and is then as it was |
| PromptTable.PromptStore.DeleteForTarget | src/telegram_agent_bot/durable_state.py:741-750 | A row stays exactly if it stands for another target, and is then as it was |
| PromptTable.PromptStore.DeleteForRoute | src/telegram_agent_bot/durable_state.py:752-758 | A row stays exactly if it belongs to another topic, and is then as it was |
| PromptTable.PromptStore.RetargetInput | src/telegram_agent_bot/durable_state.py:676-682 | The row moves to the new window and keeps topic, text and state; no other row changes |
| PromptTable.PendingExact | src/telegram_agent_bot/durable_state.py:488-497 | The rows listed for a target are exactly its queued rows, in ascending id |
| PromptQueues.AgentInputQueues.QueueAgentInput | src/telegram_agent_bot/bot.py:2671-2709 | A prompt is accepted exactly while queue and spool have room and the store answers; the row is stored first, the item goes behind the queue of its target, and no other row or queue changes |
| PromptQueues.AgentInputQueues.RestoreAgentInputQueues | src/telegram_agent_bot/bot.py:3077-3155 | The restore loop over the spool leaves exactly the spool, queues and confirmations of a restarted system, skipping rows whose move raises, and starts one drainer for each topic that has a queue with an open confirmation gate |
| PromptAtMostOnce.CasSafe | src/telegram_agent_bot/bot.py:2724-2766 | Whatever the compare-and-set answers, raising before or after it took effect included, every won row has one winner and is no longer queued |
| PromptAtMostOnce.SettleSafe | src/telegram_agent_bot/bot.py:3518-3569 | A send that succeeds, fails or raises never returns its row to queued and never leaves a second claim on it |
| PromptAtMostOnce.RestartSafe | src/telegram_agent_bot/bot.py:3077-3155 | A restart at any moment, with any retarget writes failing, keeps every handed-over row away from the rebuilt queues |
| PromptAtMostOnce.StepSafe | src/telegram_agent_bot/bot.py:3385-3571 | Each of the 26 events of all tasks keeps the whole safety invariant |
| PromptAtMostOnce.AtMostOnceSubmission | src/telegram_agent_bot/bot.py:3907-4148 | Over every run, failing writes and crashes included, each row is handed to an agent at most once, with the text it was accepted with, in its own topic; a handler that sends at once hands over the text it was called with, which is that of the row it claimed |
| PromptRestart.RestartOwners | src/telegram_agent_bot/bot.py:3077-3155 | After a restart each surviving queued row is in exactly one deque, that of its resolved target and in id order, and each submitted row has a confirmation task |
| PromptOrderRuns.OrderStep | src/telegram_agent_bot/bot.py:3907-4148 | Every fault-free event other than a restart keeps deques ascending and every queued row newer than all submissions to its target |
| PromptOrderRuns.AbortExact | src/telegram_agent_bot/bot.py:3228-3384 | A handler cancelled at any of its awaits leaves every queued row with an owner, exactly unless it had inserted a native row that is still queued |
| PromptRestart.RestartOrder | src/telegram_agent_bot/bot.py:3077-3155 | A restart keeps the order invariant exactly when no row is retargeted onto a target that was already sent a newer one |
| PromptRestart.RestartOrderExact | src/telegram_agent_bot/bot.py:3077-3155 | That condition is exact: it holds if and only if every fault-free continuation whose drainers start behind open confirmation gates sends to each target in id order |
| PromptRestart.SubmissionsInOrder | src/telegram_agent_bot/bot.py:3907-4148 | Over whole fault-free runs each target is sent its prompts in the order they were accepted, when every restart meets the condition |
| PromptRestart.NoRowOrphaned | src/telegram_agent_bot/bot.py:2671-2709 | In every state of every fault-free run, however its restarts retarget, each deque is in id order and every queued row is in the deque of its own target, or held by the native sender that inserted it |
| PromptRetarget.RetargetReorders | src/telegram_agent_bot/bot.py:3077-3155 | Without the condition the order fails: a fault-free run whose drainers are all started where the program starts them, and whose topic moves to another window before its one restart, sends a target prompt 3 before prompt 2 |
| PromptQueues.AgentInputQueues.GateClosed | src/telegram_agent_bot/bot.py:2812-2858 | The gate of a target is closed exactly while a submitted row of its topic stands for the target, or for any target when the topic is bound elsewhere |
| PromptRows.StepRows | src/telegram_agent_bot/bot.py:3385-4148 | Which rows each event of the tasks removes, adds and moves: a row leaves only when it is confirmed, expired, refused, given up with its own target, or thrown away with its own topic |
| PromptRows.OwnTopicOnly | src/telegram_agent_bot/bot.py:2724-2806 | Giving up or discarding for one topic never removes a row of another |
| PromptRows.PromptLasts | src/telegram_agent_bot/bot.py:2671-2806 | Over every run an accepted prompt stays in the spool with its text until one of those reasons about itself removes it |
| PromptMemory.StepQueue | src/telegram_agent_bot/bot.py:3385-4237 | What each event makes of the queue of every target: an accepted prompt goes behind it, the sender at work takes its head, expired ones leave the front, all of it goes when target or topic are given up, and after a restart it is the spooled rows of the target in id order; nothing else |
| PromptMemory.QueuesInRuns | src/telegram_agent_bot/bot.py:3907-4148 | So in every state of every fault-free run, however its restarts retarget |
| PromptMemory.StepWatches | src/telegram_agent_bot/bot.py:2870-3075 | A row gets a confirmation task exactly when its sender leaves it with an outcome that is unknown or not seen yet, or a restart finds it submitted, and keeps it until that task ends or the queue is thrown away |
| PromptTasks.OneDrainer | src/telegram_agent_bot/bot.py:3190-3227 | Over every run a topic has at most one drainer at work that was not cancelled, and a drainer is registered for a target exactly while there is one |
| PromptTasks.DiscardedHandsNothing | src/telegram_agent_bot/bot.py:4180-4224 | Once the user throws a queue away the drainer that was working on it wins no row and hands nothing over any more |
| TranscriptReader.TrackedSession.ReadNewLines | src/telegram_agent_bot/session_monitor.py:375-437 | The loop over the open file: from the recorded offset, or from the start of a file that got shorter, it returns the entries and notices of exactly the lines it comes to and stops at the first it cannot get past; off an object start it only moves behind the next line end |
| TranscriptReader.PollEnds | src/telegram_agent_bot/session_monitor.py:375-437 | For any file and offset, entry ends strictly increase and the new offset is a line end, the end of the file or where it was |
| TranscriptReader.PollIs | src/telegram_agent_bot/session_monitor.py:375-437 | What a poll returns for any file and offset: an entry exactly for each line that parses, a notice for each that carries one, every line ahead being an entry, blank or valid JSON; the offset is at the end or at a line that is none of these |
| TranscriptReader.TruncatedIsReadAgain | src/telegram_agent_bot/session_monitor.py:386-393 | An offset behind the end of the file gives the poll of a new session: on a file of objects the entries of a single reading of all its complete lines |
| TranscriptReader.IncrementalReading | src/telegram_agent_bot/session_monitor.py:375-437 | For any schedule of appends and polls the entries are those of a single reading of the consumed part, which is exactly the complete lines seen; the offset is a line boundary |
| TranscriptReader.TornNewlineSkipsNextLine | src/telegram_agent_bot/session_monitor.py:395-408 | Behind a visible end between an object and its newline the next poll returns nothing and moves behind the following line |
| TranscriptReader.TwoPolls | src/telegram_agent_bot/session_monitor.py:375-437 | Two polls of a growing transcript return what one poll of the longer file does, exactly unless the first ended between an object and its newline and the second sees another whole entry behind it |
| TranscriptReader.TornComesBack | src/telegram_agent_bot/session_monitor.py:411-423 | An entry that is read ahead of its newline and, the offset not being committed, once more with it carries two different offsets |
| TranscriptReader.TornLosesEntry | src/telegram_agent_bot/session_monitor.py:395-408 | Such a file and schedule: of two entries the second is never returned, and the offset ends behind it |
| Delivery.SessionMonitor.CommitDeferred | src/telegram_agent_bot/session_monitor.py:525-542 | Exactly the named sessions take over their deferred offset; all others are untouched |
| Delivery.SessionMonitor.DiscardDeferred | src/telegram_agent_bot/session_monitor.py:544-552 | Exactly the named sessions forget their deferred offset |
| Delivery.SessionMonitor.CommitDelivered | src/telegram_agent_bot/session_monitor.py:554-570 | The offset of the acknowledged session moves to the message, never beyond what was read; offset 0 commits nothing |
| Delivery.SessionMonitor.DispatchGroup | src/telegram_agent_bot/session_monitor.py:799-837 | A group stops exactly at the first callback that does not return, at eight messages, or at the soft time limit, with the offset at the last acknowledged message that carries one, within what was read; other sessions keep theirs |
| Delivery.Recipients.HandleNewMessage | src/telegram_agent_bot/bot.py:8438-8662 | The loop over the recipients sets a cursor to the message exactly for those that a delivery was tried for that succeeded or needed no content, leaves all others, sends to exactly the targets whose delivery succeeded, and fails exactly if a tried delivery failed or raised |
| Delivery.FailsExactly | src/telegram_agent_bot/bot.py:8635-8662 | Handling fails exactly when a delivery that was tried failed or raised |
| Delivery.HandlingIs | src/telegram_agent_bot/bot.py:8438-8662 | For the first so many targets, cursors, sends and failures are those of the deliveries that were tried, a target being tried when nothing raised before it and it had not had the message, before or as an earlier target |
| Delivery.HandledServes | src/telegram_agent_bot/bot.py:8438-8662 | When handling does not fail every recipient has the message or is configured not to see it; none is sent it twice, nor when it had it |
| DeliveryRuns.NothingLostExact | src/telegram_agent_bot/session_monitor.py:776-1041 | Over growing files read by the real reader, pauses, failing and interrupted callbacks, failing saves and restarts, no entry line is lost if and only if no poll moves past a new entry without returning it and no group is given up between two messages of one line |
| DeliveryRuns.TranscriptNotLost | src/telegram_agent_bot/session_monitor.py:525-570 | Over such a run an entry line below the saved offset had all its messages acknowledged, yielded none, lies behind a fast-forward point, or is the one being handed out |
| DeliverySchedules.ScheduleExact | src/telegram_agent_bot/session_monitor.py:375-437 | For lines of at most one message: no run over a set of visible ends loses a line if and only if no end falls between an object and its newline, with an entry behind it, while another lies further on |
| DeliverySchedules.ApartNeverSkips | src/telegram_agent_bot/session_monitor.py:375-437 | Under that condition no poll skips a line, however many messages lines yield |
| DeliverySchedules.TornRun | src/telegram_agent_bot/session_monitor.py:395-408 | For every torn end the run that loses the line: two polls, the second committed behind a line nobody was sent |
| DeliverySchedules.TornDelivery | src/telegram_agent_bot/session_monitor.py:395-408 | A concrete file of two entries that loses the second when seen up to 3 and 8 characters, and nothing when seen up to 4 and 8 |
| DeliverySchedules.SplitRun | src/telegram_agent_bot/session_monitor.py:816-819 | A line with two messages whose group fails at the second: the saved offset is behind the line, and the second message is lost |
| DeliverySchedules.NoticesStall | src/telegram_agent_bot/session_monitor.py:805-819 | A poll that reads eight usage-limit notices and anything else to hand out moves the offset nowhere, whatever its callbacks answer |
| DeliveryReceipts.AcknowledgedIsServed | src/telegram_agent_bot/bot.py:8438-8662 | When a message is acknowledged each recipient among its targets had its content delivered, needed none, had a later message already, or is configured not to see it |
| DeliveryRuns.FastForwardWaits | src/telegram_agent_bot/session_monitor.py:572-620 | Fast-forwarding never passes the cursor of a bound recipient that has one within the file |
| DeliveryReceipts.EveryLineReaches | src/telegram_agent_bot/session_monitor.py:572-620 | For a recipient among the targets of every message, with a cursor in the file at every poll that is fast-forwarded: for each entry line below the saved offset an event delivered one of its messages to the recipient, found that it needs no content, or that it is hidden there, or a poll read the line and it yielded nothing |
| DeliveryReceipts.CursorsComeFromDeliveries | src/telegram_agent_bot/bot.py:8348-8364 | Over every run a recipient cursor is the furthest message whose delivery to it succeeded or needed no content; refusals, interruptions and hidden messages never move it |
| DeliveryReceipts.HistoryTells | src/telegram_agent_bot/bot.py:8438-8662 | The recorded history of receipts, sends and unknown outcomes counts exactly the events |
| DeliveryRuns.StartIs | src/telegram_agent_bot/session_monitor.py:572-620 | A poll starts at the earliest cursor of the bound recipients that have one in the file, if all of these lie ahead of the recorded offset, and at that offset otherwise |
| DeliveryRuns.OffsetMoves | src/telegram_agent_bot/session_monitor.py:525-570 | A finished batch commits all that was read, an acknowledged message its own line, a batch given up nothing; what reaches the disk is what is in memory, and a restart goes back to the disk |
| DeliveryRuns.SavedOffsetGrows | src/telegram_agent_bot/session_monitor.py:999-1041 | The saved monitor offset never goes back |
| DeliveryReceipts.NoDuplicates | src/telegram_agent_bot/bot.py:8380-8409 | Counting events: of all messages of one source offset at most one content reaches a recipient, plus one for each delivery that was interrupted, however often the batch is replayed for others |
| DeliveryRuns.SiblingsSkipped | src/telegram_agent_bot/bot.py:8380-8409 | Once one message of a line has reached a recipient, no other message of that line is ever tried for it |
| DeliveryRuns.HandlingIsRun | src/telegram_agent_bot/bot.py:8438-8662 | The handling of a message without a raise is a run of skips, attempts and settlements with the same cursors, failures and sends |
| DeliveryRuns.RaisedAborts | src/telegram_agent_bot/bot.py:8621-8634 | A delivery that raises is a run that gives the group up at that recipient: later recipients keep their cursors and nothing more is acknowledged |
| DeliveryRuns.CursorsGrow | src/telegram_agent_bot/session.py:2138-2157 | A recipient cursor never goes back over a whole run |
| DeliveryRuns.DeliveryAdvances | src/telegram_agent_bot/bot.py:8348-8364 | Each recorded delivery moves the cursor strictly forward, to that message |
| Ledger.UsdUnits | src/telegram_agent_bot/claude_api_session.py:30-35 | The one positive whole number of millionths that an amount is, and nothing when there is none |
| Ledger.Limits.FromValues | src/telegram_agent_bot/claude_api_session.py:45-57 | Accepted limits are all positive with the run budget within the daily budget, and every such input is accepted |
| Ledger.Ledger.Reserve | src/telegram_agent_bot/claude_api_session.py:80-121 | A run is granted exactly when no day is blocked, the session is known and not blocked and has turns left, and the day has room for a whole run; its budget and all turns are then taken and both rows blocked, other rows staying; a denial changes nothing |
| Ledger.Ledger.Settle | src/telegram_agent_bot/claude_api_session.py:123-157 | A report is accepted exactly if it names the session, has its error flag false, 0 < turns <= remaining and a positive finite cost within the run budget; then both rows are unblocked and the turns recorded, otherwise nothing changes |
| Ledger.RunSession | src/telegram_agent_bot/claude_api_session.py:187-265 | The prompt loop does to the tables exactly what its prompts do as events of one process among many, and ends with 3 exactly when one of them stops it |
| Ledger.DailySpending | src/telegram_agent_bot/claude_api_session.py:80-157 | Each day: true cost <= rounded-up charges <= reserved <= budget; rounding adds under one unit a run; reserved is the sum of all runs granted, so nothing is refunded |
| Ledger.SessionTurns | src/telegram_agent_bot/claude_api_session.py:133-157 | An unblocked session has used exactly the turns of its accepted reports, and never more than its cap |
| Ledger.OneUnresolvedRun | src/telegram_agent_bot/claude_api_session.py:83-121 | Over all processes: nothing is blocked, or one day row and one session row are, both of the newest run, whose process is the only one running |
| Ledger.EndOfRun | src/telegram_agent_bot/claude_api_session.py:211-263 | A running process goes on exactly when its program printed such a report; otherwise it leaves the ledger unresolved |
| Ledger.UnresolvedForever | src/telegram_agent_bot/claude_api_session.py:83-121 | From an unresolved ledger no event of any process ever changes a row or starts a run |
| RouteTable.ConversationStore.ReplaceConversationRegistry | src/telegram_agent_bot/durable_state.py:314-392 | A list naming a topic or cursor twice changes nothing; any other replaces the table by exactly its routes and cursors, each route with generation 1 when it is new, its old one when it is the same, and the next one when it changed |
| RouteTable.GenerationsCountChanges | src/telegram_agent_bot/durable_state.py:339-358 | While a topic stays in every write its generation grows by exactly the number of changes of its route |
| RouteTable.FenceHasNoAba | src/telegram_agent_bot/durable_state.py:339-358 | Generations never go down, and are equal at two writes exactly when the route was the same at every write between |
| RouteTable.RemovalForgetsGeneration | src/telegram_agent_bot/durable_state.py:339-358 | A write without the topic forgets its generation: two different routes can both carry generation 1 |
| RouteTable.GenerationRestarts | src/telegram_agent_bot/durable_state.py:341-343 | A topic that is written again after an absence starts over at generation 1 |
| Routing.FenceNamesOneRoute | src/telegram_agent_bot/session.py:495-528 | A fence of the owner that still holds after later writes, none dropping the topic, names one persisted local route to its window, with its session, throughout |
| Routing.IdentityIsPersisted | src/telegram_agent_bot/session.py:495-517 | A fence taken from a saved registry carries the generation of the asking user's row and the session of the owner's persisted local route to that window |
| Routing.FenceVouchesForOwner | src/telegram_agent_bot/session.py:505-516 | A fence vouches for the owner's route over all later writes if and only if the asking user is the owner |
| Routing.SharerFenceMissesChange | src/telegram_agent_bot/session.py:505-516 | For any sharer with a row of his own: the owner's route changes and comes back between two writes and the fence still holds |
| Routing.SharerWithOwnRow | src/telegram_agent_bot/session.py:505-516 | Such a topic: two users share it and the fence of the one who does not own it is given out |
| Routing.OwnerIdempotent | src/telegram_agent_bot/session.py:993-1021 | The owner of the owner is the owner |
| Routing.OwnerIsLeast | src/telegram_agent_bot/session.py:993-1021 | The owner is the least user that shares the chat and has the topic bound, and the asking user when there is none |
| RoutingFrames.WindowForIs | src/telegram_agent_bot/session.py:2234-2249 | A topic resolves to the window its owner has bound, unless a second topic is bound to that window |
| Routing.SharedOwner | src/telegram_agent_bot/session.py:993-1021 | Users mapped to one chat and thread have one owner once any of that chat has the topic bound, and the owner has it bound |
| Routing.SharedTopicResolves | src/telegram_agent_bot/session.py:2161-2249 | After any sharer binds a window all of them resolve it, or none of them any exactly when another topic is bound to it |
| Routing.BindAgrees | src/telegram_agent_bot/session.py:2161-2197 | Binding keeps binding and target in agreement exactly when the window has a name |
| Routing.BindTouches | src/telegram_agent_bot/session.py:2161-2197 | Binding writes binding and target of the owner's topic and changes nothing else |
| Routing.BindTargetAgrees | src/telegram_agent_bot/session.py:2261-2304 | Binding any target keeps binding and target in agreement |
| Routing.BindTargetTouches | src/telegram_agent_bot/session.py:2261-2304 | Binding a target writes the owner's topic, the binding being the target's window exactly for a named local one, and changes nothing else |
| Routing.UnbindAgrees | src/telegram_agent_bot/session.py:2199-2232 | Unbinding keeps the agreement and leaves nothing bound for the owner |
| Routing.UnbindTouches | src/telegram_agent_bot/session.py:2199-2232 | Unbinding takes away binding and target of the owner's topic and the chats of the owner and those who share it; every other topic, window and cursor stays |
| RoutingFrames.ClearTouches | src/telegram_agent_bot/session.py:1023-1042 | Clearing a group chat drops exactly the owner's mapping and those to the same chat in the thread |
| Routing.RemoveWindowAgrees | src/telegram_agent_bot/session.py:1717-1784 | Removing a window keeps the agreement and leaves no binding or local target to it |
| Routing.RemoveWindowTouches | src/telegram_agent_bot/session.py:1717-1784 | Removing a window takes away its state, its cursors, the bindings and the local targets to it, and nothing else |
| Routing.ResolveStaleAgrees | src/telegram_agent_bot/session.py:631-836 | Startup re-resolution keeps the agreement, live windows having names |
| Routing.SurvivorsCanBeReached | src/telegram_agent_bot/session.py:648-757 | A binding to a window id survives startup exactly when the window is live or its state, with session and directory, can recover it; that state is kept |
| Routing.CursorsCanBeResumed | src/telegram_agent_bot/session.py:838-895 | After startup every cursor counts for a live window or one whose state was kept and none of those is dropped; sessions stand only beside cursors, and no cursor of a window with a session lacks one |
| RoutingFrames.StaleTargets | src/telegram_agent_bot/session.py:759-836 | After startup targets of other machines are as they were, local ones are kept under the present id exactly when their window is kept, and chats exactly while their topic has something bound |
| RoutingFrames.CursorMoves | src/telegram_agent_bot/session.py:838-870 | A moved cursor keeps its offset; of several that move to one place the last in the order of the dictionary stays |
| RoutingFrames.CursorGoes | src/telegram_agent_bot/session.py:843-861 | A cursor stays with a live or kept window, moves to the live window of an old-style name, and goes with any other |
| RoutingFrames.SessionMoves | src/telegram_agent_bot/session.py:871-895 | The session beside a cursor moves with it, the last one staying |
| RoutingFrames.BackfillKeeps | src/telegram_agent_bot/session.py:880-888 | A cursor without a session gets that of its recorded window, if it has one; recorded sessions stay |
| Routing.RegistryRoundTrip | src/telegram_agent_bot/session.py:373-493 | Load, restore and save leave all routes, generations and cursors unchanged exactly when local routes to one recorded window agree on its session and no sessionless cursor is on a window with a session |
| Routing.UnsharedRoundTrip | src/telegram_agent_bot/session.py:443-493 | In particular when no window is shared and every cursor has its session |
| RoutingFrames.ProjectionIs | src/telegram_agent_bot/session.py:373-430 | What is stored: one route for every topic with a binding or a target, with the session its recorded window runs, and every cursor with its session |
| RoutingFrames.RestoreIs | src/telegram_agent_bot/session.py:443-493 | What is restored: exactly the listed routes as targets, the local ones as bindings, the cursors with their sessions |
| RoutingFrames.RestoredSession | src/telegram_agent_bot/session.py:443-493 | A restored window runs the session of the last listed local route to it |
| SessionManager.SessionManager.ConversationOwnerId | src/telegram_agent_bot/session.py:993-1021 | The pass over the recorded chats finds the least user who has the topic bound |
| SessionManager.SessionManager.BindThread | src/telegram_agent_bot/session.py:2161-2197 | Binding and target of the owner are both written, and stay in agreement for a named window |
| SessionManager.SessionManager.BindThreadTarget | src/telegram_agent_bot/session.py:2261-2304 | The target is written, and the binding written or removed with it; they stay in agreement |
| SessionManager.SessionManager.UnbindThread | src/telegram_agent_bot/session.py:2199-2232 | Both are removed and the shared group mapping cleared; the former window is returned |
| SessionManager.SessionManager.ClearGroupChatId | src/telegram_agent_bot/session.py:1023-1042 | The group mapping of the owner and of everyone who shares it is dropped, and no other |
| SessionManager.SessionManager.RemoveWindowState | src/telegram_agent_bot/session.py:1717-1784 | State, cursors, bindings and local targets of the window go; the rest stays in agreement |
| SessionManager.SessionManager.ResolveStaleIds | src/telegram_agent_bot/session.py:631-895 | The migration loops, states first, compute the re-resolved registry with its cursors and their sessions, and binding and target stay in agreement |
| SessionManager.SessionManager.RestoreDurableRegistry | src/telegram_agent_bot/session.py:463-493 | The loop over the snapshot rebuilds routes and cursors and writes route sessions into recorded windows |
| SessionManager.SessionManager.ConversationRegistryRoutes | src/telegram_agent_bot/session.py:373-393 | The two loops list every bound topic and every other target once, with its projected route |
| SessionManager.SessionManager.ConversationDeliveryOffsets | src/telegram_agent_bot/session.py:412-430 | Every cursor is listed once, with its recorded session or that of its window |
| SessionManager.SessionManager.SyncDurableRegistry | src/telegram_agent_bot/session.py:432-441 | A save is always accepted and makes the store the projection of the registry |
| SessionManager.SessionManager.ActivateDurableRegistry | src/telegram_agent_bot/session.py:443-461 | Startup leaves the store as it was whenever the round-trip condition holds |
| Bridge.Bridge.ReserveDispatch | src/telegram_agent_bot/bridge.py:382-394 | An open reservation is left alone; otherwise it is in memory and, unless the save raised first, on disk, the last fingerprint and every other record staying |
| Bridge.Bridge.DispatchToWindow | src/telegram_agent_bot/bridge.py:659-698 | May only be called while the disk equals memory and holds exactly this reservation, for a fingerprint that was not the last one unless forced |
| Bridge.Bridge.ProcessTarget | src/telegram_agent_bot/bridge.py:701-799 | A known fingerprint is not sent again unless forced, a dry run sends nothing; otherwise the reservation is saved first, the text sent at most once, and the record keeps the new fingerprint after a success, the old one when the window is missing, and the open reservation when nobody knows |
| Bridge.Bridge.RunOnce | src/telegram_agent_bot/bridge.py:974-1017 | A pass does the steps of its candidates in order up to the first exception |
| Bridge.ReservedBeforeSend | src/telegram_agent_bot/bridge.py:764-774 | Whenever a send starts the disk equals memory and holds exactly that one reservation |
| Bridge.NoConsecutiveRepeat | src/telegram_agent_bot/bridge.py:749-799 | Over all processes, passes, failing saves and crashes no record gets two consecutive sends of one fingerprint, unless the second was forced |
| Bridge.UnreconciledForever | src/telegram_agent_bot/bridge.py:1024-1071 | A file with an open reservation and no process is never written again and nothing is sent |
| Bridge.InterruptedSendBlocks | src/telegram_agent_bot/bridge.py:1050-1071 | A send that is out when its process dies, or whose outcome is unknown, leaves such a file |
| UpdateProcessor.SameTopic | src/telegram_agent_bot/update_processor.py:24-40 | Two updates share a key exactly when chat and thread are the same, no thread counting as thread 0; outside chats when the user is, without a user the id, and without that the object |
| UpdateProcessor.UpdateStore.ClaimUpdate | src/telegram_agent_bot/durable_state.py:848-859 | An update is claimed exactly when it is not on record |
| UpdateProcessor.UpdateStore.CompleteUpdate | src/telegram_agent_bot/durable_state.py:861-868 | A recorded claim becomes completed; no other record changes |
| UpdateProcessor.UpdateStore.AbandonUpdate | src/telegram_agent_bot/durable_state.py:870-877 | Exactly this claim is removed, and only if it is in flight; all others stay |
| UpdateProcessor.UpdateStore.Initialize | src/telegram_agent_bot/durable_state.py:261-269 | Startup drops the in-flight claims and the expired completed ones, and nothing else |
| UpdateProcessor.TopicLocks.Enter | src/telegram_agent_bot/update_processor.py:80-83 | An existing entry keeps its lock, a new one gets a new lock; it counts one more user, and no other entry changes |
| UpdateProcessor.TopicLocks.Leave | src/telegram_agent_bot/update_processor.py:134-141 | One user fewer; the last one drops the entry, and no other entry changes |
| UpdateProcessor.OneHandlerPerTopic | src/telegram_agent_bot/update_processor.py:75-141 | All in-flight updates of one topic share one lock, at most one is in its handler, the entry counts them, and topics never share locks |
| UpdateProcessor.EntriesAreInUse | src/telegram_agent_bot/update_processor.py:134-141 | An entry exists exactly while an update of its topic is in flight |
| UpdateProcessor.HandlersInOrder | src/telegram_agent_bot/update_processor.py:80-110 | Over a whole run the handlers of one topic start in registration order |
| UpdateProcessor.TopicNeverStuck | src/telegram_agent_bot/update_processor.py:85-110 | A topic with updates in flight can always finish its handler or hand its lock on |
| UpdateProcessor.SuccessIsRecorded | src/telegram_agent_bot/update_processor.py:123-128 | A handler that ends well leaves its update on record as completed |
| UpdateProcessor.FailureIsForgotten | src/telegram_agent_bot/update_processor.py:111-122 | A handler that fails gives its update back: it is no longer on record |
| UpdateProcessor.WhatStarts | src/telegram_agent_bot/update_processor.py:75-110 | A handler starts on arrival when its topic is idle, or once the lock is handed to it, unless its update is on record, which makes it leave; nothing else starts one |
| UpdateProcessor.CompletedNotHandledAgain | src/telegram_agent_bot/update_processor.py:87-107 | Once completed, an update is not handled again while claims are answered and its record is kept, over any arrivals and restarts |
| UpdateProcessor.ClaimsExclusive | src/telegram_agent_bot/update_processor.py:87-107 | No two handlers work on one claimed update at a time, in whatever topics |
| Retries.TransientRetries.Schedule | src/telegram_agent_bot/bot.py:3653-3731 | An error changes nothing while a retry is under way or three attempts are on record, resumes a scheduled row, and otherwise records the next attempt and starts it; one that cannot be recorded is not started |
| Retries.TransientRetries.RunDue | src/telegram_agent_bot/bot.py:3585-3614 | A due task hands on exactly when the row is scheduled for its attempt and the store answers, the row then waiting for the result; otherwise the task is over, and no other task or row changes |
| Retries.TransientRetries.ResetRetry | src/telegram_agent_bot/bot.py:2642-2653 | The task is cancelled, the count cleared and the row removed if the store answers; other windows keep theirs |
| Retries.TransientRetries.RestoreRetries | src/telegram_agent_bot/bot.py:3734-3789 | The startup loop moves records to resolved windows and takes up their counts and delays, skipping those whose delete or save raises, applied or not |
| Retries.RestoredIs | src/telegram_agent_bot/bot.py:3734-3789 | Every record no other one gets in the way of is taken up again: its row under the resolved window, its count, and a sleeping task exactly if a retry was scheduled |
| Retries.ErrorIsContinued | src/telegram_agent_bot/bot.py:3574-3731 | While fewer than three attempts are on record and none is under way an error records and starts the next one, the first after a reset being 1, and that attempt is handed on when its delay is over |
| Retries.AtMostThreeRetries | src/telegram_agent_bot/bot.py:3574-3731 | For a window no restart retargets, between two resets at most three continuations are handed on, each attempt at most once and in order |
| Admission.TurnAdmissionController.TryAcquire | src/telegram_agent_bot/turn_admission.py:38-49 | A window is admitted exactly without a positive limit, when it is occupied already, or while a slot is free; only its own reservation is added, and the occupied set is never pushed over the limit |
| Admission.TurnAdmissionController.MarkSubmitted | src/telegram_agent_bot/turn_admission.py:51-54 | The reservation of the window becomes an observation; other windows keep theirs |
| Admission.TurnAdmissionController.Release | src/telegram_agent_bot/turn_admission.py:56-58 | Exactly the reservation of the window goes |
| Admission.TurnAdmissionController.Observe | src/telegram_agent_bot/turn_admission.py:60-65 | The newest observation of the window replaces the old one; nothing else changes |
| Admission.TurnAdmissionController.Forget | src/telegram_agent_bot/turn_admission.py:67-71 | Nothing is left of the window, and other windows keep everything |
| Admission.TurnAdmissionController.SetPending | src/telegram_agent_bot/turn_admission.py:73-78 | Exactly the pending mark of the window changes |
| Admission.TurnAdmissionController.IsProtected | src/telegram_agent_bot/turn_admission.py:83-85 | A window is protected exactly when it is pending or reserved |
| Admission.StepBound | src/telegram_agent_bot/turn_admission.py:38-71 | One event keeps the bound exactly unless, with the slots full, a window without one is seen active or finishes its send |
| Admission.AdmissionBound | src/telegram_agent_bot/bot.py:3492-3558 | Over any run of any number of dispatchers, windows being seen active, idle or gone at any moment, the occupied set stays within the limit for exactly as long as no such event comes |
| Admission.DisciplinedBound | src/telegram_agent_bot/bot.py:3492-3558 | With one dispatcher a window, only occupied windows seen active and none forgotten under its dispatcher, the limit is never exceeded |
| Admission.HeldIsProtected | src/telegram_agent_bot/turn_admission.py:83-85 | In such runs a window is protected from hibernation for as long as its dispatcher is at work |
| Admission.ForgottenWhileSending | src/telegram_agent_bot/handlers/status_polling.py:145-147 | The status poller forgets a window under its dispatcher: with a limit of one two windows end up occupied |
| Splitter.SplitMessage | src/telegram_agent_bot/telegram_sender.py:11-69 | The loop over the lines yields the chunks of the specification |
| Splitter.ChunkBound | src/telegram_agent_bot/telegram_sender.py:21-69 | On any text every chunk has at most the limit, five characters and the longest fence line |
| Splitter.PlainChunkBound | src/telegram_agent_bot/telegram_sender.py:40-67 | On fence-free text every chunk has at most the limit |
| Splitter.TextSurvives | src/telegram_agent_bot/telegram_sender.py:29-69 | On any text nothing but newlines is lost and nothing is reordered: the text can be read off the chunks |
| Fences.OnlyFencesAdded | src/telegram_agent_bot/telegram_sender.py:29-69 | On any text the chunks are its lines in order, newlines aside, with nothing but closing fences and fence lines of the text put in between |
| Splitter.PlainTextConserved | src/telegram_agent_bot/telegram_sender.py:29-69 | On fence-free text the chunks concatenated are the text up to newlines |
| Splitter.PiecesAre | src/telegram_agent_bot/telegram_sender.py:40-52 | An overlong line is cut into full pieces and what is left of it |
| Splitter.CutsOnlyWhenFull | src/telegram_agent_bot/telegram_sender.py:29-69 | Without fences and overlong lines a text that fits is not cut, and otherwise the chunks are the lines in consecutive groups, a chunk ending only where the next line has no room in it |
| Fences.PushedBalanced | src/telegram_agent_bot/telegram_sender.py:32-53 | The chunk that a line pushes out closes its code blocks exactly if the line is no fence and the flag was right about the chunk, or is one and the flag was wrong |
| Fences.CutBalanced | src/telegram_agent_bot/telegram_sender.py:21-69 | On every text longer than the limit: all chunks close their code blocks if and only if every line was harmless to the chunk it pushed out or was cut into, and the last chunk leaves no block open |
| Fences.BalancedExact | src/telegram_agent_bot/telegram_sender.py:17-20 | When no fence is itself cut in two: all chunks close their code blocks if and only if the text does, no fence line pushes a full chunk out and no line is cut into a piece that reads as a fence |
| Fences.ClosingFenceComesTooLate | src/telegram_agent_bot/telegram_sender.py:32-57 | A text whose only block is closed, cut into chunks that leave it open |

## Left out

- Chat-server calls, keyboards, pickers, notices, screenshots and the text of messages: user interface.
- Terminal windows and their output: a terminal is an observation (ready, busy, missing, interactive), and a send succeeds, fails or has an unknown outcome.
- SQL, schema migration and JSON encoding: each store method is one atomic operation on maps; nested dictionaries are maps with paired keys, so emptied inner dictionaries do not appear.
- Waiting times, polling intervals, time limits and expiry clocks: any of them may be over at any step.
- Prompt lifecycle: the choice between a new turn and native steering or queueing is an observation, confirmation gates answer either way, and a drainer may be woken whenever the program could start one; the submission mode column, choices and health alerts are not modelled.
- Prompt lifecycle: a native row is kept under its topic's key, while `_send_native_agent_input` stores it under the sender's id; for shared topics the two can differ.
- PromptRestart.SubmissionsInOrder: for runs in which the store does what it is asked and no handler is cancelled between inserting a native row and winning it (`PromptOrderRuns.AbortExact` says what such a cancellation does); with faults a row may stay behind, and then only the at-most-once result applies.
- PromptQueues.AgentInputQueues.RestoreAgentInputQueues: memory is empty at startup, so the program's test for rows already queued never applies.
- DeliveryReceipts.NoDuplicates: within one session identity and for cursors that are saved when written; the history command also writes cursors and is not part of this model, nor is the retargeting of windows to other sessions. The bound is for each source offset: a line read both without and with its newline has two.
- DeliveryRuns.NothingLostExact: the text is append-only and offsets are positions in it; how many messages an entry yields is an observation of each poll, since `transcript_parser.py` is not part of this model; a read that fails half way is left out.
- DeliverySchedules.ScheduleExact: for transcripts without usage-limit notices, whose lines are objects that no proper prefix passes for.
- Retry backoff and permanent blocks of the monitor: they only delay polls.
- TranscriptReader.IncrementalReading: a file is a sequence of characters with offsets as positions in it, and only a newline ends a line; multi-byte encodings and carriage returns are not modelled.
- Ledger.UsdUnits: amounts are real numbers, so the rounding of 28-digit decimals and the parsing of number texts do not appear; the launch command and the environment checks are left out.
- Bridge: the state file option is always given, as on the command line; issue selection, message building and retries of subprocesses are left out; the orchestrator is one more record.
- UpdateProcessor: the clearing of the dictionaries at shutdown, a store that cannot be opened at startup, and the global limit on concurrent updates ahead of the topic locks.
- Retries.AtMostThreeRetries: the store answers reads; writes may fail.
- SessionManager.SessionManager.ResolveStaleIds: display names and the session map file, which the program migrates too, are not modelled. Window ids have ASCII digits.
- Routing: output modes, display names, hidden and topic-managed sessions, and topics without a thread id.
- Account snapshots, hooks, model catalogue, voice transcription, disk cleanup, runner pool, doctor and hygiene checks: only easy members or foreign calls.
