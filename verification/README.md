# VM agent monitoring: model and proofs

This project models the parts of the VM agent system in which state has to agree across
processes, machines or time, and proves what those parts keep. It is written for Dafny 4.11;
`dafny verify dfyconfig.toml` checks everything.

| file | what it models |
|---|---|
| `Prelude.dfy`, `Text.dfy`, `Sorting.dfy` | optional values, JSON as decoded, trimming, Python dictionaries in insertion order, splitting and joining, the stable library sort |
| `RuntimeState.dfy`, `AgentRuntime.dfy` | the server's `AgentRuntime`: the merge of heartbeats and the event detector, first as functions on values, then as a class whose methods update the dictionaries |
| `EventLog.dfy`, `EventLogCases.dfy`, `Stabilisation.dfy` | what the logged events tell about the processes, over whole runs, with heartbeats for which they do not; what one sync heartbeat repairs |
| `Ownership.dfy`, `Liveness.dfy`, `Broadcaster.dfy` | the server's tasks interleaved at every `await`: socket ownership, the watchdog, the snapshot broadcaster; what the server shows of an agent, told from the history of the steps |
| `AgentProcess.dfy`, `Replication.dfy`, `WireFormat.dfy` | the agent's delta encoder as a class; agent, ordered channel and server as one system; a reader that knows only the names on the wire |
| `GuacamoleModel.dfy`, `GuacamoleTheory.dfy`, `GuacamoleFrame.dfy`, `GuacamoleLookup.dfy`, `ProvisionedRecords.dfy`, `GuacamoleCases.dfy`, `GuacamoleBridge.dfy` | provisioning of a connection group and a connection: the desired records, their fixed points, what a run leaves of a record, how records are found, what is stored value by value, a configuration without a fixed point, and the code as loops and remote writes |
| `UserSessions.dfy` | the list of user sessions and the preferred user |
| `ProcessForest.dfy`, `ProcessTree.dfy` | the process tree over a parent relation that may have cycles: the relation, and linked nodes on the heap |
| `Base64Url.dfy`, `AgentJwt.dfy`, `JsonWitness.dfy` | base64url and signed agent tokens; a JSON library that meets their hypothesis |
| `LifecycleModel.dfy`, `LifecycleTheory.dfy`, `LifecycleRuns.dfy`, `LifecycleRegistration.dfy`, `LifecycleManager.dfy` | the lifecycle manager with callbacks that register and unregister components in mid-sweep |
| `TaskLog.dfy` | following a log file by byte offset and keeping its tail |
| `AgentRegistry.dfy`, `Principals.dfy` | reconciling the browser's agents with the registry; lists of users and groups in one text field |

Where the code does not meet a promise on all inputs, the code is kept as it is and the exact
condition is proved:

- A delta heartbeat logs an exit exactly when a running process is reported with a falsy
  `is_running` other than `False` (`EventLog.DeltaExitsExactly`; a status of 0 does it in
  `EventLogCases.ZeroStatusIsAnExit`).
- The event log tells which processes run exactly as long as no remembered, stopped process
  turns running again (`EventLog.LogIsExactIff`; it happens in `EventLogCases.RevivalIsSilent`).
- The server agrees with what the agent last sent exactly as long as no doubt is left from a
  lost heartbeat or a process that took over a pid (`Replication.ServerAgreesWithAgent`). After a change of pid and
  the next delta it agrees exactly if the mover was never reported, or does not run, or nothing
  is held under its new pid, or every figure held there has changed since or happens to be right
  (`Replication.RebindAgreesExactly`; it fails in `Replication.TakeoverLosesAgreement`).
- An agent with a socket is flagged connected exactly unless a reset that finished after its
  reconnection had the last word (`Ownership.ConnectedUnlessClobbered`,
  `Ownership.ReconnectInTheGap`).
- A second provisioning run whose templates ask for less is a no-op exactly when every dropped
  value was not a forced parameter or was forced to the same value
  (`GuacamoleTheory.ProvisioningConverges`; a template that sets the port only when a password
  is given fails it in `GuacamoleCases.DroppingTheTemplatePortUpdates`).
- A component may be ticked without having been started exactly when an `on_start` callback of
  the start sweep takes components off the list in front of the loop's position and thereby
  carries an unstarted one past it (`LifecycleRuns.SkippingIsUnsafe`,
  `LifecycleRuns.SkippingHappens`). Callbacks that unregister nothing never do
  (`LifecycleRuns.StartsWithoutRemovalsAreComplete`). A stop sweep can leave a component running
  in the same way (`LifecycleRuns.StopIsComplete`, `LifecycleRuns.StopSkippingHappens`).
- A component that an `on_start` callback of the start sweep registers is started twice, once on
  the spot and once by the sweep (`LifecycleRegistration.RegisteredByACallbackIsStartedTwice`); with
  silent callbacks every registered component is started exactly once
  (`LifecycleRegistration.RegisteredAreStarted`).
- A tick that changes a status makes the next delta report it, except where the new status is
  access denied: no delta ever tells that (`AgentProcess.ChangedStatusIsReported`).
- The process tree shows every process exactly when no process is its own ancestor
  (`ProcessForest.EverythingIsShown`; two processes that name each other as parent are hidden in
  `ProcessForest.CycleIsHidden`).
- A refresh that races with a write leaves the log view out of step exactly when something was
  written between taking the size and reading (`TaskLog.RaceDisagrees`).

Conventions. Process ids are natural numbers; the conversions `str(pid)` and `int(pid)` are
identities here. Session keys are any strings but the two keys that hold an agent's metrics and
connection. Sockets and browsers are numbers. Clocks are parameters. Where Python or JavaScript
visits a dictionary whose order does not matter, the methods visit it in an arbitrary order;
where it does (provisioning, user sessions, the process tree), order is part of the model.

## Model

| member | source | states |
|---|---|---|
| RuntimeState.ProjectionIsUnique | vm_agent_server/src/agent_runtime.py:223-255 | when no pid is listed twice, a state has exactly one projection to pid, running, exe and session, so "the cache agrees" means one value |
| AgentRuntime.Runtime.MarkConnectionState | vm_agent_server/src/agent_runtime.py:22-27 | sets the flag and time of one agent, creating its entry if needed, and keeps the cache in agreement |
| AgentRuntime.Runtime.RegisterAgent | vm_agent_server/src/agent_runtime.py:29-37 | the newest socket owns the agent and the agent is flagged connected; a different previous socket, and only that, is closed |
| AgentRuntime.Runtime.UnregisterAgent | vm_agent_server/src/agent_runtime.py:39-51 | detaches and resets if and only if the agent has an id and no other socket owns it; otherwise nothing at all changes |
| AgentRuntime.Runtime.BeginTimeout | vm_agent_server/src/agent_runtime.py:53-61 | the half of a timeout before the await: the socket is popped and closed, no state is reset yet |
| AgentRuntime.Runtime.TimeoutAgent | vm_agent_server/src/agent_runtime.py:53-64 | an uninterrupted timeout detaches and resets exactly the agents that had a socket |
| AgentRuntime.Runtime.CloseAllConnections | vm_agent_server/src/agent_runtime.py:66-76 | every active agent, in whatever order, ends up without a socket and reset, all others untouched; every socket is closed and counted once |
| AgentRuntime.Runtime.ResetAgentRuntimeState | vm_agent_server/src/agent_runtime.py:140-156 | forgets sessions and cache of one agent, keeps its metrics, clears its connected flag |
| AgentRuntime.Runtime.RemoveAgent | vm_agent_server/src/agent_runtime.py:158-161 | nothing is left of the agent, nothing else changes, the cache still agrees |
| AgentRuntime.Runtime.MergeHeartbeat | vm_agent_server/src/agent_runtime.py:163-217 | the new state is the merge of the old one with the heartbeat, only this agent changes, and the logged rows are exactly those of the difference, at most one per pid where pids are unique |
| AgentRuntime.Runtime.DetectEvents | vm_agent_server/src/agent_runtime.py:219-255 | remembers the projection of the merged state and appends exactly the rows caused by the change, tagged with the agent |
| AgentRuntime.Runtime.GetTimedOutAgents | vm_agent_server/src/agent_runtime.py:127-138 | lists, without repetition, exactly the connected agents last seen at or before the cutoff |
| AgentRuntime.Runtime.BuildFrontendSnapshot | vm_agent_server/src/agent_runtime.py:89-119 | the summary of every agent: its host data and visible sessions with a process count and no processes |
| AgentRuntime.Runtime.GetDefaultTargetAgentId | vm_agent_server/src/agent_runtime.py:84-87 | the only active agent, if and only if there is exactly one |
| AgentRuntime.MergeSessionsLoop | vm_agent_server/src/agent_runtime.py:186-214 | visiting the reported sessions in any order yields the same merge |
| AgentRuntime.MergeProcessesLoop | vm_agent_server/src/agent_runtime.py:206-214 | visiting the reports in any order drops the stopped, stores the new and updates the known records field by field |
| AgentRuntime.DropStaleLoop | vm_agent_server/src/agent_runtime.py:174-184 | a sync forgets exactly the visible sessions that the heartbeat does not mention as objects |
| AgentRuntime.CompareWithPrevious | vm_agent_server/src/agent_runtime.py:219-253 | both loops of the detector, in any order: the projection of the state, and exactly the rows that some listing or absence causes |
| AgentRuntime.MarkKeepsCache | vm_agent_server/src/agent_runtime.py:22-27 | flagging a connection never makes cache and state disagree |
| AgentRuntime.ResetKeepsCache | vm_agent_server/src/agent_runtime.py:140-156 | resetting state and cache together keeps them in agreement for every agent |
| AgentRuntime.ResetAllKeepsCache | vm_agent_server/src/agent_runtime.py:66-76 | so does resetting any set of agents |
| AgentRuntime.RemoveKeepsCache | vm_agent_server/src/agent_runtime.py:158-161 | so does removing an agent |
| AgentRuntime.HeartbeatKeepsCache | vm_agent_server/src/agent_runtime.py:163-255 | so does merging a heartbeat and running the detector |
| EventLog.EventsAreTheDifference | vm_agent_server/src/agent_runtime.py:223-253 | with unique pids the rows of one heartbeat are the set difference of old and new projection, kind by kind and pid by pid, at most one per pid, each with the right session and executable |
| EventLog.EventsOfAListedProcess | vm_agent_server/src/agent_runtime.py:228-247 | with unique pids, read off the listed record: a start if and only if the pid is new and runs; a stop if and only if it ran, is listed not running and the record gives an exit code equal to 0, 0.0 or False; a failure if and only if it gives another one or none; with the listed exit code (or -1), executable and session |
| EventLog.EventsOfAnAbsentProcess | vm_agent_server/src/agent_runtime.py:249-253 | a pid that no session lists gets exactly one row if it ran, its disappearance as remembered, and none otherwise |
| EventLog.DeltaExitsExactly | vm_agent_server/src/agent_runtime.py:206-214 | a delta logs a stop or failure for a pid if and only if the pid ran and is reported with a falsy status that is not False |
| EventLog.DeltaEmitsStartOrDisappeared | vm_agent_server/src/agent_runtime.py:206-253 | with boolean status fields a delta logs only starts and disappearances |
| EventLogCases.RevivalIsSilent | vm_agent_server/src/agent_runtime.py:236-253 | a sync with a stopped process and a delta that reports it running: a run whose log does not tell that it runs |
| EventLogCases.ZeroStatusIsAnExit | vm_agent_server/src/agent_runtime.py:208-245 | a running process whose delta says 0 for its status is logged as failed |
| EventLog.DeltaRecord | vm_agent_server/src/agent_runtime.py:200-214 | a record listed after a delta is an unreported old one or a reported one laid over what was known |
| EventLog.OpenAfter | vm_agent_server/src/agent_runtime.py:236-253 | how one heartbeat's rows change the set of processes the log leaves open, and when rows keep alternating |
| EventLog.BeatKeepsOpenWithin | vm_agent_server/src/agent_runtime.py:219-255 | one heartbeat keeps the open set inside the running one, and keeps it equal if and only if nothing revives |
| EventLog.OpenIsRunning | vm_agent_server/src/agent_runtime.py:140-255 | over every run of heartbeats and resets, whatever the rows leave open is running, and no process is started twice |
| EventLog.LogIsExactIff | vm_agent_server/src/agent_runtime.py:219-255 | the log is exact at every moment of a run if and only if no remembered, stopped process ever turns running; then starts and ends alternate |
| Stabilisation.SyncShowsThePayload | vm_agent_server/src/agent_runtime.py:174-199 | after a sync, sessions and process tables are those of the payload, whatever was held before |
| Stabilisation.MergeKeepsAgreement | vm_agent_server/src/agent_runtime.py:186-214 | two servers that agree on processes (and session ids) still do after the same heartbeat, sync or delta |
| Stabilisation.SyncStabilises | vm_agent_server/src/agent_runtime.py:163-214 | any two histories agree on every process after one common sync and a common suffix of heartbeats |
| Stabilisation.SyncStabilisesCaches | vm_agent_server/src/agent_runtime.py:163-255 | if the sync names the session ids, their event caches agree from then on as well |
| Ownership.CacheAlwaysAgrees | vm_agent_server/src/agent_runtime.py:22-255 | in every interleaving, also between the halves of a timeout, the cache is the projection of the state |
| Ownership.OwnerStays | vm_agent_server/src/agent_runtime.py:39-51 | a registered socket keeps its agent through any run of other steps, late unregistrations of superseded sockets included |
| Ownership.TakingAwayTakes | vm_agent_server/src/agent_runtime.py:39-76 | the steps excluded there do take the agent away |
| Ownership.ConnectedUnlessClobbered | vm_agent_server/src/agent_runtime.py:22-76 | over every run an agent with a socket is flagged connected if and only if no reset finished after its last registration or heartbeat |
| Ownership.ActiveIsKnown | vm_agent_server/src/agent_runtime.py:29-76 | an agent with a socket always has an entry |
| Ownership.ActiveIsConnected | vm_agent_server/src/agent_runtime.py:53-64 | with atomic timeouts an agent with a socket is always flagged connected |
| Ownership.HeartbeatRepairs | vm_agent_server/src/agent_runtime.py:163-169 | one heartbeat restores the flag, which then holds until another reset finishes |
| Ownership.ReconnectInTheGap | vm_agent_server/src/agent_runtime.py:53-64 | a run in which an agent reconnects while its old socket is closed and ends with a socket and a cleared flag |
| Ownership.DeadlineWithFlooredClocks | vm_agent_server/src/agent_runtime.py:127-138 | with clocks floored to seconds a silence of at most 14 s is never flagged and one of at least 15 s always is |
| Ownership.FlaggedWithinTwentySeconds | vm_agent_server/src/server.py:128-138 | with scans at most 5 s apart a silent connected agent is flagged at some scan no later than 20 s after it was heard |
| Liveness.MetricsAreTheLastReported | vm_agent_server/src/agent_runtime.py:140-172 | over every run the metrics shown are those of the last heartbeat that carried some, through any resets, and are gone only by removal |
| Liveness.ConnectionIsTheLastWord | vm_agent_server/src/agent_runtime.py:22-169 | over every run the connection entry is the last word: heard, at the time of the last registration or heartbeat, or let go, at the time of a later reset |
| Liveness.HeardIsNotTimedOut | vm_agent_server/src/agent_runtime.py:127-169 | over every run with real clocks floored to seconds, no scan flags an agent that registered or sent a heartbeat at most 14 seconds before, whatever came between |
| Liveness.SilentIsTimedOut | vm_agent_server/src/agent_runtime.py:127-138 | and every scan flags one still shown connected that was silent for 15 seconds or more |
| Liveness.HeartbeatOnSession | vm_agent_server/src/agent_runtime.py:174-199 | session by session: given fields win over held ones, a sync replaces the processes and forgets visible sessions that are not given as objects, anything else stays |
| Liveness.DeltaOnProcess | vm_agent_server/src/agent_runtime.py:200-214 | process by process: an unreported one stays, one reported with is_running False goes, a new one is stored, a known one is updated field by field; an empty report with a count of zero clears the session |
| Liveness.OtherAgentsAreUntouched | vm_agent_server/src/agent_runtime.py:22-217 | no step changes the state or the cache of an agent it does not name |
| Liveness.ResetForgetsSessions | vm_agent_server/src/agent_runtime.py:140-156 | a finished reset leaves no sessions, no connected flag and no cache |
| Liveness.SnapshotShows | vm_agent_server/src/agent_runtime.py:89-101 | the snapshot holds every agent with its host data and exactly its visible sessions |
| Liveness.SnapshotShowsSession | vm_agent_server/src/agent_runtime.py:99-115 | a session is shown with its fields, an empty "processes" object, and the reported count if it is a nonnegative number or a boolean, else the number of processes held |
| Broadcaster.StepKeepsInv | vm_agent_server/src/server.py:119-125 | every step of every task keeps: with the event clear and no change awaiting its signal, each browser is up to date or queued for the current snapshot |
| Broadcaster.NoLostUpdate | vm_agent_server/src/server.py:119-142 | hence in every interleaving of changes, signals and broadcasts no browser misses the last change |
| Broadcaster.SignalledChangesArrive | vm_agent_server/src/server.py:119-125 | from every state in which the event is set, the broadcaster alone, if its sends arrive, reaches a state in which every browser has the snapshot of the current agents |
| Broadcaster.UnsignalledChangeIsUnseen | vm_agent_server/src/server.py:454-460 | a run in which a change whose signal is still to come is not seen although the event is clear |
| AgentProcess.Process.SetState | vm_agent/src/core/abstract_proces.py:387-401 | a new status raises the change flag; access denied is never left |
| AgentProcess.Process.CheckState | vm_agent/src/core/abstract_proces.py:500-505 | an unknown code or a failed probe gives the unknown status, unless access was denied |
| AgentProcess.Process.EnsureFallbackTelemetry | vm_agent/src/core/abstract_proces.py:295-322 | without a reading the last figures, or zeros, stand in, and the exit code is refreshed; without a pid nothing happens |
| AgentProcess.Process.RefreshTelemetry | vm_agent/src/core/abstract_proces.py:159-180 | what a due reading changes: a figure equal to the last report is not taken over |
| AgentProcess.Process.OnTick | vm_agent/src/core/abstract_proces.py:144-182 | a whole tick, for every status, clock, probe and reading |
| AgentProcess.Process.SetPid | vm_agent/src/core/abstract_proces.py:324-332 | a new pid drops the handle, raises the flag and keeps the memory of what was last sent |
| AgentProcess.Process.ToJsonOnlyChange | vm_agent/src/core/abstract_proces.py:432-498 | sends nothing, a full record or a delta exactly as specified, and remembers what it sent |
| AgentProcess.Process.BuildDelta | vm_agent/src/core/abstract_proces.py:441-492 | the delta built by successive updates is the pid, the static fields when due, the changed figures and the status |
| AgentProcess.CompareFields | vm_agent/src/core/abstract_proces.py:482-489 | the field-by-field comparison collects exactly the changed figures |
| AgentProcess.ChangedMeansDifferent | vm_agent/src/core/abstract_proces.py:482-489 | a figure is sent if and only if its transmitted value differs from the last one sent |
| AgentProcess.ReportBringsUpToDate | vm_agent/src/core/abstract_proces.py:465-496 | a receiver that agreed with the last report agrees with the new telemetry after laying the delta over it |
| AgentProcess.ReportHeader | vm_agent/src/core/abstract_proces.py:441-492 | every report carries pid and boolean status, and a full one carries every field |
| AgentProcess.EncodeAgainSendsNothingNew | vm_agent/src/core/abstract_proces.py:432-498 | encoding twice without a tick sends at most pid and status the second time and remembers the same |
| AgentProcess.TickKeepsMemory | vm_agent/src/core/abstract_proces.py:144-182 | a tick never touches what was last sent |
| AgentProcess.AccessDeniedIsFinal | vm_agent/src/core/abstract_proces.py:144-153 | a process that denied access keeps that status whatever the system answers later, and sends no delta |
| AgentProcess.FreshReadingIsSent | vm_agent/src/core/abstract_proces.py:177-179 | a reading that differs from the last report raises the flag, so the next delta is sent |
| AgentProcess.TickFollowsTheExitCode | vm_agent/src/core/abstract_proces.py:144-157 | unless access was denied, a tick with a handle ends in the status its exit code stands for, or unknown; without a handle in failed |
| AgentProcess.DownTimeIsCounted | vm_agent/src/core/abstract_proces.py:150-157 | a tick counts as down, and reads nothing, if and only if access is denied or a monitored process does not run |
| AgentProcess.ChangedStatusIsReported | vm_agent/src/core/abstract_proces.py:144-157 | a new status makes the next delta report whether the process runs, with the one exception of access denied; a tick without a new status or reading leaves it silent |
| AgentProcess.FallbackKeepsTheFigures | vm_agent/src/core/abstract_proces.py:295-322 | a stand-in keeps every figure of the last reading, or zeros, and takes only the exit code anew |
| AgentProcess.ReadingsAreTakenWhenDueAndNew | vm_agent/src/core/abstract_proces.py:159-180 | a reading is taken when it is due and differs from the last report, and the next one is due a second later |
| WireFormat.ReportIsMadeExactly | vm_agent/src/core/abstract_proces.py:432-439 | a report is made if and only if there are figures and something changed or a sync asks, or there are none yet and a pid |
| WireFormat.ReportNamesTheProcess | vm_agent/src/core/abstract_proces.py:441-492 | every report carries the pid and the boolean status under their names |
| WireFormat.FullReportReadsBack | vm_agent/src/core/abstract_proces.py:441-481 | a full report reads back, name by name, as the figures remembered as sent, the whole static description and the monitored flag |
| Replication.ServerApplies | vm_agent_server/src/agent_runtime.py:195-214 | the channel's receiver does to a session's table what merging the heartbeat does |
| Replication.DrainIsMonotone | vm_agent_server/src/agent_runtime.py:195-214 | a server that starts with less never ends with a different value in a field it holds |
| Replication.StepKeepsInv | vm_agent/src/core/process_manager.py:127-184 | ticks, spawns, exits, pid changes, heartbeats, deliveries, losses and forgetting all keep it true that the fields that differ are exactly the doubts |
| Replication.HeartbeatDiffers | vm_agent/src/core/abstract_proces.py:432-498 | for any server table, agreeing or not: after a heartbeat a field differs if and only if it differed before and this is a delta in which the process reports nothing, or that it runs but not this field |
| Replication.ServerDiffersExactly | vm_agent_server/src/agent_runtime.py:186-214 | over every run, losses and pid changes included, once the heartbeats in flight have arrived the server differs from what was last sent in exactly the doubtful fields; without loss since the last sync it holds no pid that was not reported last time |
| Replication.ServerAgreesWithAgent | vm_agent/src/core/abstract_proces.py:432-498 | hence without loss since the last sync every field it holds for a live process is the one last sent if and only if no doubt is left |
| Replication.NoDoubtSince | vm_agent/src/core/abstract_proces.py:432-498 | from the start or a sync on there is no doubt until a heartbeat is lost or a process changes its pid |
| Replication.ServerRecordIsComplete | vm_agent_server/src/agent_runtime.py:206-214 | the record is complete for every pid whose last full report was followed by no reported stop, loss or forgetting |
| WireFormat.ServerReadsBack | vm_agent/src/core/abstract_proces.py:464-496 | over every run a complete record without a doubt reads back, name by name, as exactly the CPU usage, working set, private bytes, handle count, counters, exit code and status last sent |
| WireFormat.WholeRecordsReadBack | vm_agent/src/core/abstract_proces.py:464-496 | in particular for every pid whose last full report was followed by nothing that took its record away |
| WireFormat.SyncIsReadBack | vm_agent/src/core/abstract_proces.py:432-498 | after a sync that is the case for every process with a pid or figures, whatever was lost before |
| Replication.ResendingChangesNothing | vm_agent/src/core/abstract_proces.py:432-498 | a second delta without a tick in between changes neither side, whatever was lost before; only an agent without processes needs a table that holds nothing else |
| Replication.ReboundProcessSendsNoStatics | vm_agent/src/core/abstract_proces.py:324-332 | after a pid change the next delta carries no static field, so it alone cannot rebuild a complete record |
| Replication.RebindAgreesExactly | vm_agent/src/core/abstract_proces.py:324-332 | after a pid change and the next delta the tables agree if and only if the mover was never reported, does not run, nothing is held under its new pid, or every figure held there changed or is right anyway |
| Replication.TakeoverLosesAgreement | vm_agent/src/core/process_manager.py:172-184 | a run from the start in which a process restarted under the pid of one that ended leaves the ended one's handle count at the server |
| GuacamoleBridge.NormalizeStringDict | vm_agent_server/src/guacamole_bridge.py:670-677 | the loop trims, drops empty keys and values, and lets a later key win in its earlier place |
| GuacamoleBridge.ReadConnectionParameters | vm_agent_server/src/guacamole_bridge.py:631-645 | the loop trims and drops only empty keys |
| GuacamoleBridge.CollectUniqueStrings | vm_agent_server/src/guacamole_bridge.py:69-81 | the loop keeps the first spelling of each non-blank string up to case |
| GuacamoleBridge.ResolveConnectionGroupIdentifier | vm_agent_server/src/guacamole_bridge.py:1244-1268 | the first group that answers to a candidate by identifier, key or name, up to case |
| GuacamoleBridge.ResolveConnectionIdentifier | vm_agent_server/src/guacamole_bridge.py:1271-1299 | the first such connection under the wanted parent, if one is wanted |
| GuacamoleBridge.FindConnection | vm_agent_server/src/guacamole_bridge.py:872-889 | which connection, and which name, an upsert starts from |
| GuacamoleBridge.ReviseConnection | vm_agent_server/src/guacamole_bridge.py:891-914 | an existing connection is written back if and only if the desired record differs from it |
| GuacamoleBridge.UpsertGuacamoleGroup | vm_agent_server/src/guacamole_bridge.py:818-860 | creates, updates or reuses as specified, and writes exactly once unless it reuses or fails |
| GuacamoleBridge.UpsertGuacamoleConnection | vm_agent_server/src/guacamole_bridge.py:863-924 | the same for the connection |
| GuacamoleBridge.ProvisionAgentTarget | vm_agent_server/src/guacamole_bridge.py:1307-1386 | a whole run: result, store and log of writes, with at most one write of the group and then one of the connection |
| GuacamoleTheory.Normalized | vm_agent_server/src/guacamole_bridge.py:670-677 | normalising is idempotent and on trimmed dictionaries drops exactly the empty values |
| GuacamoleTheory.GroupIsSettled | vm_agent_server/src/guacamole_bridge.py:818-860 | after any successful group upsert the stored group is one that the next upsert will reuse |
| GuacamoleTheory.SettledGroupIsReused | vm_agent_server/src/guacamole_bridge.py:737-754 | and the next upsert does reuse it |
| GuacamoleTheory.ConnectionIsSettled | vm_agent_server/src/guacamole_bridge.py:863-924 | after any successful connection upsert the stored connection has absorbed the forced and rendered values |
| GuacamoleTheory.SettledMatches | vm_agent_server/src/guacamole_bridge.py:757-815 | a connection that absorbed its values matches the payload of templates asking for no more if and only if no dropped value was forced to something else |
| GuacamoleTheory.UniqueIntoIsUnique | vm_agent_server/src/guacamole_bridge.py:69-81 | the collected strings are trimmed, non-blank and distinct up to case |
| GuacamoleTheory.UniqueIsStable | vm_agent_server/src/guacamole_bridge.py:69-81 | collecting again with strings that were already offered changes nothing |
| GuacamoleTheory.ProvisioningConverges | vm_agent_server/src/guacamole_bridge.py:1307-1386 | for every mapping and store, a second run on the first one's mapping and store, with templates asking for no more, writes nothing, reuses both records and returns the same mapping, if and only if nothing forced was dropped |
| GuacamoleCases.DroppingTheTemplatePortUpdates | vm_agent_server/src/guacamole_bridge.py:771-815 | a configuration and two runs of which the second, asking for less, writes the connection again |
| GuacamoleTheory.ProvisioningIsIdempotent | vm_agent_server/src/guacamole_bridge.py:1307-1386 | in particular the same run twice is one run |
| GuacamoleTheory.GroupStageFrame | vm_agent_server/src/guacamole_bridge.py:818-860 | a group upsert changes at most the one group it names |
| GuacamoleTheory.ConnectionStageFrame | vm_agent_server/src/guacamole_bridge.py:863-924 | a connection upsert changes at most the one connection it names |
| GuacamoleTheory.ProvisioningFrame | vm_agent_server/src/guacamole_bridge.py:1344-1386 | a run leaves every other remote record as it was |
| GuacamoleTheory.UpdateKeepsWhatWasThere | vm_agent_server/src/guacamole_bridge.py:771-815 | an existing nonempty parameter or attribute that is neither forced nor rendered keeps its value, and nothing appears that was not there, forced or rendered |
| GuacamoleTheory.PayloadParameters | vm_agent_server/src/guacamole_bridge.py:792-813 | the desired parameters as a dictionary: what was there, overridden by the forced values, overridden by the rendered template; likewise the attributes |
| GuacamoleTheory.QualifiedNameSplits | vm_agent_server/src/guacamole_bridge.py:701-719 | a qualified user name is taken apart at its last separator, and a domain given apart wins |
| GuacamoleTheory.PlainNameSplits | vm_agent_server/src/guacamole_bridge.py:701-719 | a name without a separator stays whole beside its domain |
| ProvisionedRecords.ConnectionLeadsToTheTarget | vm_agent_server/src/guacamole_bridge.py:771-924 | after every successful run the connection that the mapping names is stored: host name, port, resize method, certificate flag, user and domain wherever the template is silent, every rendered value where it is not; protocol, parent group and name |
| ProvisionedRecords.QualifiedNameIsStored | vm_agent_server/src/guacamole_bridge.py:796-801 | of DOMAIN\user the user part is stored as user name and the domain part, unless one is given apart, as domain |
| ProvisionedRecords.CorpBobIsStored | vm_agent_server/src/guacamole_bridge.py:796-801 | CORP\bob is stored as user name bob and domain CORP |
| ProvisionedRecords.OtherParametersStay | vm_agent_server/src/guacamole_bridge.py:790-802 | every other nonempty parameter of a connection that was there is the same before and after a run, and no other key appears |
| ProvisionedRecords.GroupIsInPlace | vm_agent_server/src/guacamole_bridge.py:737-860 | after every successful run the group is stored with its type; an existing one keeps its name and parent, a new one gets them from mapping and configuration |
| ProvisionedRecords.ConnectionIsNamed | vm_agent_server/src/guacamole_bridge.py:863-924 | a run never renames a connection; a new one is named by the mapping or else after the host |
| ProvisionedRecords.ProvisioningSucceedsExactly | vm_agent_server/src/guacamole_bridge.py:1329-1366 | with identifiers given: skipped, failed or done under exactly these conditions |
| ProvisionedRecords.NamedGroupIsUsed | vm_agent_server/src/guacamole_bridge.py:823-831 | without an identifier the first group that a candidate names is used and none is created |
| ProvisionedRecords.NamedConnectionIsUsed | vm_agent_server/src/guacamole_bridge.py:878-889 | and the first connection under that group |
| ProvisionedRecords.UnmatchedIsCreated | vm_agent_server/src/guacamole_bridge.py:852-924 | with nothing given and nothing matching, both records are created under the assigned identifiers |
| GuacamoleLookup.FirstGroupIsFound | vm_agent_server/src/guacamole_bridge.py:1244-1268 | the answer is the first group whose identifier, name or key folds to a nonblank candidate, and empty if there is none |
| GuacamoleLookup.FirstConnectionIsFound | vm_agent_server/src/guacamole_bridge.py:1271-1299 | the same for connections, under the wanted parent if one is wanted |
| GuacamoleLookup.LastItemCounts | vm_agent_server/src/guacamole_bridge.py:631-677 | of keys that differ only in whitespace the last item counts; normalising passes over blank values, downloading keeps them |
| GuacamoleLookup.CandidatesCoverTheTarget | vm_agent_server/src/guacamole_bridge.py:1374-1386 | the returned candidates cover, up to case, the old ones, the names and identifier now known, agent and host |
| GuacamoleLookup.OnlyGivenValues | vm_agent_server/src/guacamole_bridge.py:69-81 | and hold nothing else, earlier values first |
| Text.TrimIsTheMiddle | vm_agent_server/src/guacamole_bridge.py:30-33 | trimming cuts off all whitespace at both ends and nothing else |
| GuacamoleTheory.FirstRunCreatesBoth | vm_agent_server/src/guacamole_bridge.py:1344-1386 | a first run on an empty store creates a group and a connection under it |
| GuacamoleFrame.UpsertKeepsTheRest | vm_agent_server/src/guacamole_bridge.py:863-924 | the same for parameters and attributes, in both directions, of the record that the store holds after the upsert |
| GuacamoleFrame.GroupKeepsTheRest | vm_agent_server/src/guacamole_bridge.py:737-754 | a group that was there has exactly the nonempty attributes it had, and the parent it had, after the upsert |
| GuacamoleFrame.ProvisioningKeepsTheRest | vm_agent_server/src/guacamole_bridge.py:1344-1386 | a whole run keeps the rest of the group and of the connection that were there, read back from the store |
| UserSessions.ExtractPreferredSessionUsername | vm_agent_server/src/guacamole_bridge.py:250-280 | the user of the first eligible session that no eligible session beats in the lexicographic score, or "" if none is eligible |
| UserSessions.PreferredIsUnique | vm_agent_server/src/guacamole_bridge.py:250-280 | that names one user, and "" means that no session is eligible |
| UserSessions.PreferredHolds | vm_agent_server/src/guacamole_bridge.py:256-280 | the preferred user is that of the first session that holds against all others: active first, then connected or up, then interactive, then a positive id |
| UserSessions.CollectSessions | vm_agent_server/src/guacamole_bridge.py:287-321 | one row for each eligible session, in the order of the state |
| UserSessions.RowsAreEligible | vm_agent_server/src/guacamole_bridge.py:290-296 | a row is listed if and only if some eligible entry gives it |
| UserSessions.ListOrderIsWeak | vm_agent_server/src/guacamole_bridge.py:323-330 | the sort keys form a strict weak order |
| UserSessions.ListVmUserSessions | vm_agent_server/src/guacamole_bridge.py:283-332 | a sorted, stable permutation of the eligible sessions whose head is preferred whenever there is one |
| UserSessions.HeadIsPreferred | vm_agent_server/src/guacamole_bridge.py:323-331 | any sorted permutation of the rows has a preferred head |
| UserSessions.RowsShowTheirSessions | vm_agent_server/src/guacamole_bridge.py:294-322 | what a row shows of its session, with the defaults for blank status, type and name |
| UserSessions.ListIsInOrder | vm_agent_server/src/guacamole_bridge.py:324-331 | of any two rows: preferred first, then active, then by folded user name in dictionary order, then by id |
| UserSessions.DictionaryOrder | vm_agent_server/src/guacamole_bridge.py:324-331 | the comparison of names is dictionary order |
| Sorting.StableSortSorts | vm_agent_server/src/guacamole_bridge.py:323-330 | the library sort: ordered, same items |
| Sorting.StableSortIsStable | vm_agent_server/src/guacamole_bridge.py:323-330 | the library sort: items that tie keep their order |
| ProcessForest.GroundedIsNotBelowItself | frontend/src/components/ProcessTree.tsx:89-97 | a process whose parent chain ends at a root is not on a cycle |
| ProcessForest.BelowIsUnderMembers | frontend/src/components/ProcessTree.tsx:89-97 | what lies under a process, or under the roots, is what lies at or under the members of that list |
| ProcessForest.MembersAreApart | frontend/src/components/ProcessTree.tsx:89-97 | two siblings share no descendant |
| ProcessForest.MemberFacts | frontend/src/components/ProcessTree.tsx:76-78 | the next node of a sweep has not been visited, nor anything under it, and there is strictly less under it: the recursion ends |
| ProcessForest.EverythingIsShown | frontend/src/components/ProcessTree.tsx:81-100 | every process is reached from the roots if and only if no process is its own ancestor |
| ProcessForest.CycleIsHidden | frontend/src/components/ProcessTree.tsx:89-97 | two processes that name each other as parent are not under the roots |
| ProcessTree.CreateNodes | frontend/src/components/ProcessTree.tsx:82-86 | one fresh node without children for every process |
| ProcessTree.LinkNodes | frontend/src/components/ProcessTree.tsx:88-97 | pushing nodes one by one fills the roots and every child list with exactly the processes that belong there |
| ProcessTree.MemberListsHold | frontend/src/components/ProcessTree.tsx:88-97 | every process is in exactly one list, once: the roots or the children of its listed parent, cycles or not |
| ProcessTree.SortNodes | frontend/src/components/ProcessTree.tsx:69-79 | ends on every parent relation, visits everything under the list once, sorts exactly those lists and no others |
| ProcessTree.SortChildren | frontend/src/components/ProcessTree.tsx:76-78 | the same for the child list of one node, in place |
| ProcessTree.SortedNodes | frontend/src/components/ProcessTree.tsx:70-74 | sorting nodes by name and number sorts their numbers by that order |
| ProcessTree.BuildProcessForest | frontend/src/components/ProcessTree.tsx:81-100 | every process hung by its parent number, roots and visited child lists by name rank and number, untouched lists on cycles, and each reachable process visited once |
| ProcessTree.HungByParent | frontend/src/components/ProcessTree.tsx:88-97 | a root names no other listed process as its parent, a child names the process it hangs under |
| ProcessTree.SortedList | frontend/src/components/ProcessTree.tsx:69-74 | of two nodes of a sorted list the first has the smaller name rank, or the same and the smaller number |
| Base64Url.EncodedShape | shared/security/agent_jwt.py:40-41 | encoded text is ASCII without dots and padding, and its length is never 1 more than a multiple of 4 |
| Base64Url.PaddingIsRestored | shared/security/agent_jwt.py:44-45 | the decoder's padding formula restores exactly what the encoder stripped |
| Base64Url.PaddedInGroups | shared/security/agent_jwt.py:40-45 | with its padding an encoding is whole groups of four |
| Base64Url.ReadEncoded | shared/security/agent_jwt.py:46-47 | reading the letters of an encoding leaves the reader with the bytes, in the right position of a group |
| Base64Url.RoundTrip | shared/security/agent_jwt.py:40-49 | decoding undoes encoding for every byte sequence |
| Base64Url.EncodeIsInjective | shared/security/agent_jwt.py:40-41 | different bytes have different encodings |
| Base64Url.ThreeBytesEncoded | shared/security/agent_jwt.py:40-41 | three bytes make four characters of six bits each, from the highest bit down |
| Base64Url.KnownEncodings | shared/security/agent_jwt.py:40-41 | test vectors of section 10 of RFC 4648 |
| Base64Url.UrlSafeCharacters | shared/security/agent_jwt.py:40-41 | the two characters of the url-safe alphabet |
| AgentJwt.DotsAndParts | shared/security/agent_jwt.py:56-59 | counting dots and splitting at dots agree |
| AgentJwt.SignedTokenShape | shared/security/agent_jwt.py:62-72 | a signed token has exactly two dots and splits into its three segments |
| AgentJwt.ParseUndoesDump | shared/security/agent_jwt.py:21-37 | the claims model reads back the claims it wrote, with or without an expiry |
| AgentJwt.ClaimsAreRead | shared/security/agent_jwt.py:21-37 | claims are read under their names, four of them with defaults, and the subject is the agent |
| JsonWitness.SomeLibraryIsFaithful | shared/security/agent_jwt.py:52-53 | the hypothesis on JSON can be met: a library that writes the header and any claims as bytes and reads them back |
| AgentJwt.VerifyOfSigned | shared/security/agent_jwt.py:75-124 | the outcome for a signed token under any secret: bad signature if and only if the keyed hashes differ, else what claims and clock decide |
| AgentJwt.SignThenVerify | shared/security/agent_jwt.py:62-124 | with the same secret the same claims come back if and only if `now` is at most `exp` and every expectation is met; an expired token is reported as such before any mismatch |
| AgentJwt.IssuedLifetime | shared/security/agent_jwt.py:127-148 | an issued token is accepted up to and including the last second of its lifetime, without end if there is none |
| AgentJwt.AcceptedIsSigned | shared/security/agent_jwt.py:75-124 | every accepted token is a header that names HS256, a payload and the keyed hash of both under this secret, unexpired and meeting the expectations |
| AgentJwt.SignedIsAccepted | shared/security/agent_jwt.py:75-124 | and every such token is accepted |
| AgentJwt.SignatureIsNotMalleable | shared/security/agent_jwt.py:100-103 | an accepted token's signature cannot be written in a second way |
| LifecycleManager.Manager.RegisterComponent | vm_agent/src/core/life_cycle_manager.py:31-45 | appends and, while running, starts a new component, with whatever its callback does |
| LifecycleManager.Manager.UnregisterComponent | vm_agent/src/core/life_cycle_manager.py:47-58 | stops and removes a component; fails if its own callback had removed it |
| LifecycleManager.Manager.RunCallback | vm_agent/src/core/life_cycle_manager.py:41-45 | the registrations and removals of a callback in order, up to an unguarded failure |
| LifecycleManager.Manager.CallAll | vm_agent/src/core/life_cycle_manager.py:69-75 | a loop by position over the list as it changes |
| LifecycleManager.Manager.Start | vm_agent/src/core/life_cycle_manager.py:60-79 | starts once; a second start does nothing |
| LifecycleManager.Manager.TickOnce | vm_agent/src/core/life_cycle_manager.py:85-95 | one round of ticks while running |
| LifecycleManager.Manager.RequestStop | vm_agent/src/core/life_cycle_manager.py:112-118 | the flag falls before anything is awaited |
| LifecycleManager.Manager.StopAll | vm_agent/src/core/life_cycle_manager.py:128-134 | the sweep of stops |
| LifecycleTheory.ExecEffect | vm_agent/src/core/life_cycle_manager.py:31-58 | whatever a callback does, components that were not stopped keep their order and are not called, and those that joined have been started if the manager runs |
| LifecycleTheory.UnregisterEffect | vm_agent/src/core/life_cycle_manager.py:47-58 | the same for a removal, after which the component is gone whatever its callback did |
| LifecycleTheory.RegisterEffect | vm_agent/src/core/life_cycle_manager.py:31-45 | the same for a registration |
| LifecycleRegistration.RegistrationIsRemembered | vm_agent/src/core/life_cycle_manager.py:31-45 | a new component joins an idle manager silently; a running one starts it first, and it stays unless something stops it |
| LifecycleRegistration.SecondRegistrationIsIgnored | vm_agent/src/core/life_cycle_manager.py:33-35 | registering again changes nothing |
| LifecycleRegistration.RemovalStopsFirst | vm_agent/src/core/life_cycle_manager.py:47-58 | a removal stops the component first, and it is gone afterwards; everybody not stopped meanwhile stays |
| LifecycleRegistration.FailedRemovalEndsTheCallback | vm_agent/src/core/life_cycle_manager.py:47-58 | a stop callback that removes its own component makes the removal fail, which ends the calling callback unless it is guarded |
| LifecycleRegistration.StaysUntilStopped | vm_agent/src/core/life_cycle_manager.py:31-136 | over every run a registered component stays registered until it is stopped |
| LifecycleRegistration.QuietStart | vm_agent/src/core/life_cycle_manager.py:60-75 | a start with silent callbacks starts every component once, in order, and nobody else |
| LifecycleRegistration.RegistrationsAreListed | vm_agent/src/core/life_cycle_manager.py:31-45 | components registered with a new manager are listed in that order and nobody is called |
| LifecycleRegistration.RegisteredAreStarted | vm_agent/src/core/life_cycle_manager.py:31-75 | started afterwards, exactly these are started, once each, in order |
| LifecycleRegistration.RegisteredByACallbackIsStartedTwice | vm_agent/src/core/life_cycle_manager.py:31-75 | a component registered by a start callback is started twice |
| LifecycleRuns.OneCallback | vm_agent/src/core/life_cycle_manager.py:69-75 | which unstarted components stand in front of the loop after one start callback: those that stood there, and those it was carried past |
| LifecycleRuns.LeftOut | vm_agent/src/core/life_cycle_manager.py:69-75 | exactly which components a start sweep leaves registered and unstarted |
| LifecycleRuns.StartIsComplete | vm_agent/src/core/life_cycle_manager.py:60-75 | a start sweep starts everybody if and only if it passes nobody by |
| LifecycleRuns.StartsWithoutRemovalsAreComplete | vm_agent/src/core/life_cycle_manager.py:60-75 | what a caller can check: start callbacks that unregister nothing, at any depth, pass nobody by |
| LifecycleRuns.LeftRunning | vm_agent/src/core/life_cycle_manager.py:128-134 | exactly which components of the list a stop sweep never stops |
| LifecycleRuns.StopIsComplete | vm_agent/src/core/life_cycle_manager.py:128-134 | a stop sweep stops everybody if and only if it passes nobody by |
| LifecycleRuns.StopSkippingHappens | vm_agent/src/core/life_cycle_manager.py:128-134 | two components, of which the first unregisters itself when stopped: the second is never stopped |
| LifecycleRuns.NeverTwice | vm_agent/src/core/life_cycle_manager.py:31-136 | over every run no component is registered twice |
| LifecycleRuns.TicksAreSafe | vm_agent/src/core/life_cycle_manager.py:60-136 | over every run whose start sweeps pass nobody by, every tick falls after a start and before the next stop of its component |
| LifecycleRuns.SkippingIsUnsafe | vm_agent/src/core/life_cycle_manager.py:69-95 | the condition is exact: the next round of ticks is safe if and only if the start sweep passed nobody by |
| LifecycleRuns.SkippingHappens | vm_agent/src/core/life_cycle_manager.py:69-75 | two components, of which the first unregisters itself when started: the second is ticked unstarted |
| LifecycleRuns.SteadySweepTicksAll | vm_agent/src/core/life_cycle_manager.py:85-95 | a round without registration changes ticks every component once, in order |
| TaskLog.LogView.Refresh | frontend/src/hooks/useTaskAPI.ts:130-165 | one refresh: append and crop, or start over when the log is shorter than the offset |
| TaskLog.TailIsTheEnd | frontend/src/hooks/useTaskAPI.ts:139-159 | cropping keeps the end of the text, 200000 characters of it, and all of a shorter one |
| TaskLog.GrowthIsFollowed | frontend/src/hooks/useTaskAPI.ts:148-159 | after any growth one refresh shows the last 200000 characters and says so exactly when there are more |
| TaskLog.ShrinkIsNoticed | frontend/src/hooks/useTaskAPI.ts:139-146 | after a cut below the offset one refresh starts over and is right again |
| TaskLog.ReadBehind | vm_agent_server/src/tasks/db.py:447-459 | reading from the end of what was seen gives exactly what was written since |
| TaskLog.RaceDisagrees | vm_agent_server/src/tasks/db.py:453-459 | text written between taking the size and reading is shown but not counted; the view is in step if and only if there was none |
| TaskLog.RaceRepeats | vm_agent_server/src/tasks/db.py:453-459 | and the next refresh shows it a second time |
| TaskLog.OverlapRepeats | frontend/src/hooks/useTaskAPI.ts:176-181 | two refreshes in flight at once append the same text twice |
| TaskLog.ViewShowsTheTail | frontend/src/hooks/useTaskAPI.ts:130-165 | over every run of sequential refreshes of a log that grows or is cut, the view shows the tail of the log as last read |
| AgentRegistry.MergeRegistryAgents | frontend/src/hooks/useAgentSocket.ts:97-136 | the merge of all rows, in a new object unless the registry is empty |
| AgentRegistry.DropStale | frontend/src/hooks/useAgentSocket.ts:157-164 | deletes exactly the entries that only a registry they are not in speaks for |
| AgentRegistry.ReconcileRegistryAgents | frontend/src/hooks/useAgentSocket.ts:153-167 | merge and deletion; the argument is left alone unless the registry is empty, in which case it is the object changed |
| AgentRegistry.ReconciliationIsIdempotent | frontend/src/hooks/useAgentSocket.ts:97-167 | reconciling twice with the same rows is reconciling once, for every picture and registry |
| AgentRegistry.MergedSource | frontend/src/hooks/useAgentSocket.ts:97-136 | a source that was given stays; whoever a row names without one comes from the registry |
| AgentRegistry.ReconciledShows | frontend/src/hooks/useAgentSocket.ts:153-167 | live agents all stay, and besides them exactly the trimmed, nonempty registered ids are shown |
| AgentRegistry.KnownFromItsRow | frontend/src/hooks/useAgentSocket.ts:97-136 | an agent known from one row alone is shown connected if and only if the row says online, under its trimmed host or display name, as last seen, without sessions |
| AgentRegistry.RegistryOnlyFills | frontend/src/hooks/useAgentSocket.ts:97-136 | of an agent that is known already the registry fills gaps and changes nothing else |
| AgentRegistry.OnlyRegisteredRemain | frontend/src/hooks/useAgentSocket.ts:153-167 | for any picture: whoever is left with registry as source is registered, and nobody with another source is dropped |
| AgentRegistry.MarkedIsSourced | frontend/src/hooks/useAgentSocket.ts:138-151 | marking keeps the agents and gives each the live source |
| AgentRegistry.StrippedIsSourced | frontend/src/hooks/useAgentSocket.ts:78-95 | closing the socket keeps agents and sources, drops sessions and shows everybody disconnected |
| AgentRegistry.PageShows | frontend/src/hooks/useAgentSocket.ts:196-320 | over every run of fetches, snapshots and disconnections the page shows exactly the last snapshot's and the registered agents |
| Principals.SplitGivesPrincipals | frontend/src/lib/guacamoleAccess.ts:17-22 | any text splits into distinct, trimmed, nonempty, separator-free names |
| Principals.SplitNamesEveryEntry | frontend/src/lib/guacamoleAccess.ts:17-22 | exactly the nonblank entries between separators are named |
| Principals.RoundTrip | frontend/src/lib/guacamoleAccess.ts:17-26 | a list survives joining and splitting if and only if its names are distinct, trimmed, nonempty and separator-free |
| Principals.TypedNamesAreRead | frontend/src/lib/guacamoleAccess.ts:17-22 | names joined with newlines, commas or semicolons are read back in order, a repeated one in its first place |
| Principals.OneMoreName | frontend/src/lib/guacamoleAccess.ts:17-22 | one more name is added at the end unless it was there |
| Principals.SplitJoinSplit | frontend/src/lib/guacamoleAccess.ts:17-26 | for every text, splitting, joining and splitting again is splitting |
| Splitting.SplitJoin | frontend/src/lib/guacamoleAccess.ts:17-26 | splitting undoes joining for nonempty lists of separator-free parts |

## Left out

- HTTP, WebSocket and Guacamole tunnel transport, request routing, configuration from the environment and logging: only their effect on state is modelled.
- Win32 calls: handles, exit codes and telemetry readings are arbitrary inputs of the agent model.
- The telemetry database: a recorded event is an entry of a log, written in order; sampling in `ingest_heartbeat` is not modelled.
- Starting and restarting processes, window tracking and the task and deployment services: any of their effects on a process that leave the report memory alone are covered by one arbitrary step of the replication system.
- Process entries of a heartbeat are JSON objects, and `processes` is an object: other shapes make the server raise and are not modelled.
- Statuses and numeric exit codes that compare equal after transmission are one value; a failed probe before the first status is modelled as the unknown code.
- AgentProcess.FreshReadingIsSent: says that a differing reading is sent, not that what is held equals the process's true figures, because a reading equal to the last report leaves an older unsent one in place.
- Replication.ServerAgreesWithAgent: requires that nothing was lost since the last sync, because a lost delta may have been the one that named a pid as gone; for the fields held see Replication.ServerDiffersExactly.
- Replication: one sender per pid. `try_restart_process` (vm_agent/src/core/process_manager.py:120, through line 279) can leave one process object listed under its old and its new pid, so that it reports twice with one memory of what was sent; this is not modelled.
- Ownership.ActiveIsConnected: the converse, that a connected agent has a socket, is not claimed, because a late heartbeat sets the flag without one.
- Ownership: the watchdog's list may be stale when it acts; a timeout step may name any agent at any time, which includes that.
- Broadcaster.NoLostUpdate: every change counts as awaiting its signal until the task that made it sets the event; the path in which a superseded socket's heartbeat is merged and its handler returns without setting the event therefore stays unsignalled and is excluded by the hypothesis.
- Broadcaster: the filter that sends an empty snapshot to users without visibility is not modelled.
- GuacamoleTheory.ProvisioningConverges: assumes that the server gives a new record a fresh, nonempty, trimmed identifier and stores what is written; a record that vanished is the error `NotFound`.
- Case folding is an arbitrary function and template rendering an arbitrary function of the template values; nested objects in templates are taken after conversion to text.
- UserSessions.ListVmUserSessions: `session_id` and `process_count` are integers already, with 0 where the conversion fails.
- ProcessTree.BuildProcessForest: `localeCompare` is an arbitrary ranking of names by real numbers, and object keys are numbers given in enumeration order.
- AgentJwt: the keyed hash is an arbitrary function and so are the JSON reader and writer, of which only that reading back the written header or claims returns them is assumed (see JsonWitness.SomeLibraryIsFaithful); the time claims other than the expiry are not checked, as in the code, and a token is still accepted in the second `exp`, one more than section 4.1.4 of RFC 7519 grants.
- LifecycleRuns.TicksAreSafe: start and stop do not overlap, and callbacks register and unregister but do not start or stop the manager; a sweep that never ends because every callback registers another component is not modelled.
- LifecycleManager.Manager.CallAll: `is_healthy` after a failed tick is not modelled; it changes nothing the manager holds.
- TaskLog.ViewShowsTheTail: a log that is replaced by one that has already grown past the old offset is not noticed by the code and is excluded; refreshes are sequential and reads atomic (see TaskLog.OverlapRepeats and TaskLog.RaceDisagrees).
- AgentRegistry.PageShows: switching the hook off, which forgets the registry rows without reconciling, is not a step of the run.
- AgentRegistry: entries inherited from JavaScript's object prototype and the deferral of state updates by the framework are not modelled.
- Principals: an undefined list joins like the empty one.
- Panels, charts, the Guacamole viewport, role ranking, URL joining, changelog grouping and bootstrap configuration: effects of the browser, or only easy claims.
- The credential provider in C++: COM, registry and named-pipe plumbing.
