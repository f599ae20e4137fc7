/**
 The server's AgentRuntime object: three dictionaries, updated in place by the methods.
 Sockets are compared by identity only, so a socket is a number; `closed` records the
 close calls in order, and `events` the rows handed to the telemetry database.
 */
module AgentRuntime {
  import opened Prelude
  import opened JsonValues
  import opened RuntimeState

  const HEARTBEAT_TIMEOUT_SECONDS: int := 15

  type Socket = nat

  function StateOf(stats: map<AgentId, AgentState>, a: AgentId): AgentState {
    if a in stats then stats[a] else EMPTY_STATE
  }

  function SeenOf(prev: map<AgentId, SeenMap>, a: AgentId): SeenMap {
    if a in prev then prev[a] else map[]
  }

  // The cache agrees with the merged state: for every agent, what the event detector
  // remembers is the projection of what the server holds.
  ghost predicate CacheAgrees(stats: map<AgentId, AgentState>, prev: map<AgentId, SeenMap>) {
    forall a :: IsProjection(SeenOf(prev, a), StateOf(stats, a))
  }

  function MarkStats(stats: map<AgentId, AgentState>, a: AgentId, connected: bool, now: int)
    : map<AgentId, AgentState>
  {
    stats[a := MarkState(StateOf(stats, a), connected, now)]
  }

  function ResetStats(stats: map<AgentId, AgentState>, a: AgentId, now: int): map<AgentId, AgentState> {
    if a in stats then stats[a := ResetState(stats[a], now)] else stats
  }

  function ResetAll(stats: map<AgentId, AgentState>, agents: set<AgentId>, now: int): map<AgentId, AgentState> {
    map a | a in stats :: if a in agents then ResetState(stats[a], now) else stats[a]
  }

  lemma ResetAllStep(stats: map<AgentId, AgentState>, agents: set<AgentId>, a: AgentId, now: int)
    requires a !in agents
    ensures ResetStats(ResetAll(stats, agents, now), a, now) == ResetAll(stats, agents + {a}, now)
  {
  }

  lemma CloseStep(stats: map<AgentId, AgentState>, prev: map<AgentId, SeenMap>, all: set<AgentId>, todo: set<AgentId>,
                  a: AgentId, now: int)
    requires a in todo && todo <= all
    ensures ResetStats(ResetAll(stats, all - todo, now), a, now) == ResetAll(stats, all - (todo - {a}), now)
    ensures prev - (all - todo) - {a} == prev - (all - (todo - {a}))
  {
    assert all - todo + {a} == all - (todo - {a});
    ResetAllStep(stats, all - todo, a, now);
  }

  // ---------- The summary sent to browsers ----------

  datatype Summary = Summary(metrics: Slot<Json>, connection: Slot<Connection>, sessions: map<SessionKey, Record>)

  predicate ReportsCount(fields: Record) {
    && "process_count" in fields
    && match fields["process_count"]
       case Int(i) => i >= 0
       case Bool(b) => true
       case _ => false
  }

  function ShownCount(session: Session): Json {
    if ReportsCount(session.fields) then session.fields["process_count"] else Int(|session.processes|)
  }

  function NoProcesses(): Json {
    Obj(map[])
  }

  function SummarizeSession(session: Session): Record {
    (session.fields - {"processes"})["process_count" := ShownCount(session)]["processes" := NoProcesses()]
  }

  function Summarize(state: AgentState): Summary {
    Summary(
      state.metrics,
      state.connection,
      SummarizeSessions(state.sessions))
  }

  function SummarizeSessions(sessions: map<SessionKey, Session>): map<SessionKey, Record> {
    map k | k in sessions && Visible(k) :: SummarizeSession(sessions[k])
  }

  function SnapshotOf(stats: map<AgentId, AgentState>): map<AgentId, Summary> {
    map a | a in stats :: Summarize(stats[a])
  }

  // ---------- Heartbeat timeouts ----------

  predicate TimedOut(state: AgentState, now: int, timeout: int) {
    IsConnected(state) && state.connection.value.lastSeen <= now - timeout
  }

  class Runtime {
    var latestStats: map<AgentId, AgentState>
    var activeAgents: map<AgentId, Socket>
    var prevStates: map<AgentId, SeenMap>
    var events: seq<(AgentId, Event)>
    var closed: seq<Socket>

    ghost predicate Valid()
      reads this
    {
      CacheAgrees(latestStats, prevStates)
    }

    constructor ()
      ensures Valid()
      ensures latestStats == map[] && activeAgents == map[] && prevStates == map[]
      ensures events == [] && closed == []
    {
      latestStats, activeAgents, prevStates := map[], map[], map[];
      events, closed := [], [];
    }

    method MarkConnectionState(a: AgentId, connected: bool, now: int)
      modifies this`latestStats
      ensures latestStats == MarkStats(old(latestStats), a, connected, now)
      ensures latestStats[a].connection == Present(Connection(connected, now))
      ensures latestStats[a].metrics == StateOf(old(latestStats), a).metrics
      ensures latestStats[a].sessions == StateOf(old(latestStats), a).sessions
      ensures old(Valid()) ==> Valid()
    {
      if a !in latestStats {
        latestStats := latestStats[a := EMPTY_STATE];
      }
      latestStats := latestStats[a := latestStats[a].(connection := Present(Connection(connected, now)))];
      MarkKeepsCache(old(latestStats), prevStates, a, connected, now);
    }

    // The newest socket owns the agent; a different previous one is closed.
    method RegisterAgent(a: AgentId, ws: Socket, now: int)
      modifies this`latestStats, this`activeAgents, this`closed
      ensures activeAgents == old(activeAgents)[a := ws]
      ensures latestStats == MarkStats(old(latestStats), a, true, now)
      ensures closed == if a in old(activeAgents) && old(activeAgents)[a] != ws
                        then old(closed) + [old(activeAgents)[a]] else old(closed)
      ensures old(Valid()) ==> Valid()
    {
      var previous := Lookup(activeAgents, a);
      activeAgents := activeAgents[a := ws];
      MarkConnectionState(a, true, now);
      if previous.Some? && previous.value != ws {
        closed := closed + [previous.value];
      }
    }

    // Detaches the agent unless a newer socket has taken over; then nothing changes.
    method UnregisterAgent(a: AgentId, ws: Option<Socket>, now: int) returns (detached: bool)
      modifies this`latestStats, this`activeAgents, this`prevStates
      ensures detached <==> a != "" && (ws.None? || a !in old(activeAgents) || old(activeAgents)[a] == ws.value)
      ensures !detached ==>
        latestStats == old(latestStats) && activeAgents == old(activeAgents) && prevStates == old(prevStates)
      ensures detached ==>
        && activeAgents == old(activeAgents) - {a}
        && latestStats == ResetStats(old(latestStats), a, now)
        && prevStates == old(prevStates) - {a}
      ensures old(Valid()) ==> Valid()
    {
      if a == "" {
        return false;
      }
      var current := Lookup(activeAgents, a);
      if ws.Some? && current.Some? && current.value != ws.value {
        return false;
      }
      if current.Some? {
        activeAgents := activeAgents - {a};
      }
      ResetAgentRuntimeState(a, now);
      return true;
    }

    // The first half of a timeout, up to the point where closing the socket is awaited.
    method BeginTimeout(a: AgentId) returns (popped: bool)
      modifies this`activeAgents, this`closed
      ensures popped <==> a in old(activeAgents)
      ensures activeAgents == old(activeAgents) - {a}
      ensures closed == if popped then old(closed) + [old(activeAgents)[a]] else old(closed)
    {
      var current := Lookup(activeAgents, a);
      activeAgents := activeAgents - {a};
      if current.None? {
        return false;
      }
      closed := closed + [current.value];
      return true;
    }

    // A timeout during which nothing else runs.
    method TimeoutAgent(a: AgentId, now: int) returns (timedOut: bool)
      modifies this`latestStats, this`activeAgents, this`prevStates, this`closed
      ensures timedOut <==> a in old(activeAgents)
      ensures activeAgents == old(activeAgents) - {a}
      ensures timedOut ==> latestStats == ResetStats(old(latestStats), a, now) && prevStates == old(prevStates) - {a}
      ensures !timedOut ==> latestStats == old(latestStats) && prevStates == old(prevStates)
      ensures closed == if timedOut then old(closed) + [old(activeAgents)[a]] else old(closed)
      ensures old(Valid()) ==> Valid()
    {
      timedOut := BeginTimeout(a);
      if timedOut {
        ResetAgentRuntimeState(a, now);
      }
    }

    // Closes every connection, in any order, and resets every agent that had one.
    method CloseAllConnections(now: int) returns (count: nat)
      modifies this`latestStats, this`activeAgents, this`prevStates, this`closed
      ensures activeAgents == map[]
      ensures count == |old(activeAgents)|
      ensures latestStats == ResetAll(old(latestStats), old(activeAgents).Keys, now)
      ensures prevStates == old(prevStates) - old(activeAgents).Keys
      ensures |closed| == |old(closed)| + count && old(closed) <= closed
      ensures old(activeAgents).Values <= set ws | ws in closed
      ensures old(Valid()) ==> Valid()
    {
      var sockets := activeAgents;
      var todo := sockets.Keys;
      count := 0;
      while todo != {}
        invariant todo <= sockets.Keys
        invariant activeAgents.Keys == todo
        invariant count == |sockets| - |todo|
        invariant latestStats == ResetAll(old(latestStats), sockets.Keys - todo, now)
        invariant prevStates == old(prevStates) - (sockets.Keys - todo)
        invariant |closed| == |old(closed)| + count && old(closed) <= closed
        invariant forall a | a in sockets && a !in todo :: sockets[a] in closed
      {
        var a :| a in todo;
        CloseStep(old(latestStats), old(prevStates), sockets.Keys, todo, a, now);
        CloseOne(a, sockets[a], now);
        count := count + 1;
        todo := todo - {a};
      }
      assert sockets.Keys - todo == sockets.Keys;
      ResetAllKeepsCache(old(latestStats), old(prevStates), sockets.Keys, now);
    }

    method CloseOne(a: AgentId, ws: Socket, now: int)
      modifies this`latestStats, this`activeAgents, this`prevStates, this`closed
      ensures activeAgents == old(activeAgents) - {a}
      ensures closed == old(closed) + [ws]
      ensures latestStats == ResetStats(old(latestStats), a, now)
      ensures prevStates == old(prevStates) - {a}
    {
      activeAgents := activeAgents - {a};
      closed := closed + [ws];
      ResetAgentRuntimeState(a, now);
    }

    method ResetAgentRuntimeState(a: AgentId, now: int)
      modifies this`latestStats, this`prevStates
      ensures latestStats == ResetStats(old(latestStats), a, now)
      ensures a in old(latestStats) ==>
        && latestStats[a].sessions == map[]
        && (old(latestStats[a].connection.Present?) ==> latestStats[a].connection == Present(Connection(false, now)))
        && (old(latestStats[a].metrics.Present?) ==> latestStats[a].metrics == old(latestStats[a].metrics))
      ensures prevStates == old(prevStates) - {a}
      ensures old(Valid()) ==> Valid()
    {
      if a !in latestStats {
        prevStates := prevStates - {a};
        ResetKeepsCache(old(latestStats), old(prevStates), a, now);
        return;
      }
      var state := latestStats[a];
      var connection := state.connection;
      if connection.Present? {
        connection := Present(Connection(false, now));
      } else {
        connection := Nothing;
      }
      var metrics := if state.metrics.Present? then state.metrics else Nothing;
      latestStats := latestStats[a :=
        if metrics.Present? || connection.Present? then AgentState(metrics, connection, map[]) else EMPTY_STATE];
      prevStates := prevStates - {a};
      ResetKeepsCache(old(latestStats), old(prevStates), a, now);
    }

    method RemoveAgent(a: AgentId)
      modifies this`latestStats, this`activeAgents, this`prevStates
      ensures activeAgents == old(activeAgents) - {a}
      ensures latestStats == old(latestStats) - {a}
      ensures prevStates == old(prevStates) - {a}
      ensures old(Valid()) ==> Valid()
    {
      activeAgents := activeAgents - {a};
      latestStats := latestStats - {a};
      prevStates := prevStates - {a};
      RemoveKeepsCache(old(latestStats), old(prevStates), a);
    }

    method MergeHeartbeat(beat: Heartbeat, now: int)
      modifies this`latestStats, this`prevStates, this`events
      ensures latestStats == old(latestStats)[beat.Agent() := MergeState(StateOf(old(latestStats), beat.Agent()), beat, now)]
      ensures latestStats[beat.Agent()].connection == Present(Connection(true, now))
      ensures latestStats[beat.Agent()].metrics ==
        if beat.metrics.Some? then Present(beat.metrics.value) else StateOf(old(latestStats), beat.Agent()).metrics
      ensures beat.Agent() in prevStates
      ensures prevStates == old(prevStates)[beat.Agent() := prevStates[beat.Agent()]]
      ensures old(events) <= events
      ensures exists emitted: seq<Event> ::
        && events == old(events) + Tag(beat.Agent(), emitted)
        && Detected(SeenOf(old(prevStates), beat.Agent()), latestStats[beat.Agent()], prevStates[beat.Agent()], emitted)
      ensures old(Valid()) ==> Valid()
    {
      var a := beat.Agent();
      MarkConnectionState(a, true, now);
      var state := latestStats[a];
      if beat.metrics.Some? {
        state := state.(metrics := Present(beat.metrics.value));
      }
      var sessions := MergeSessionsLoop(state.sessions, beat.Status(), beat.sync);
      state := state.(sessions := sessions);
      latestStats := latestStats[a := state];
      assert state == MergeState(StateOf(old(latestStats), a), beat, now);
      ghost var emitted := DetectEvents(a, state);
      HeartbeatKeepsCache(old(latestStats), old(prevStates), a, state, prevStates[a]);
    }

    // Remembers the projection of the merged state and logs what changed.
    method DetectEvents(a: AgentId, state: AgentState) returns (ghost emitted: seq<Event>)
      modifies this`prevStates, this`events
      ensures a in prevStates && prevStates == old(prevStates)[a := prevStates[a]]
      ensures events == old(events) + Tag(a, emitted)
      ensures Detected(SeenOf(old(prevStates), a), state, prevStates[a], emitted)
    {
      if a !in prevStates {
        prevStates := prevStates[a := map[]];
      }
      var prev := prevStates[a];
      var current, rows := CompareWithPrevious(prev, state);
      emitted := rows;
      events := events + Tag(a, rows);
      prevStates := prevStates[a := current];
    }

    // The agents whose connected flag is stale, in any order.
    method GetTimedOutAgents(now: int, timeout: int := HEARTBEAT_TIMEOUT_SECONDS) returns (stale: seq<AgentId>)
      ensures forall a :: a in stale <==> a in latestStats && TimedOut(latestStats[a], now, timeout)
      ensures forall i, j | 0 <= i < j < |stale| :: stale[i] != stale[j]
    {
      var cutoff := now - timeout;
      stale := [];
      var todo := latestStats.Keys;
      while todo != {}
        invariant todo <= latestStats.Keys
        invariant forall a :: a in stale <==> a in latestStats && a !in todo && TimedOut(latestStats[a], now, timeout)
        invariant forall i, j | 0 <= i < j < |stale| :: stale[i] != stale[j]
      {
        var a :| a in todo;
        todo := todo - {a};
        var connection := latestStats[a].connection;
        if !connection.Present? || !connection.value.connected {
          continue;
        }
        if connection.value.lastSeen <= cutoff {
          stale := stale + [a];
        }
      }
    }

    method BuildFrontendSnapshot() returns (snapshot: map<AgentId, Summary>)
      ensures snapshot == SnapshotOf(latestStats)
    {
      snapshot := map[];
      var todo := latestStats.Keys;
      while todo != {}
        invariant todo <= latestStats.Keys
        invariant snapshot.Keys == latestStats.Keys - todo
        invariant forall a | a in snapshot :: snapshot[a] == Summarize(latestStats[a])
      {
        var a :| a in todo;
        var state := latestStats[a];
        var sessions := SummarizeSessionsLoop(state.sessions);
        snapshot := snapshot[a := Summary(state.metrics, state.connection, sessions)];
        todo := todo - {a};
      }
    }

    // The only active agent, if there is exactly one.
    method GetDefaultTargetAgentId() returns (target: Option<AgentId>)
      ensures target.Some? <==> |activeAgents| == 1
      ensures target.Some? ==> activeAgents.Keys == {target.value}
    {
      if |activeAgents| == 1 {
        var a :| a in activeAgents;
        assert activeAgents.Keys == {a} by {
          assert |activeAgents.Keys - {a}| == 0;
        }
        return Some(a);
      }
      return None;
    }
  }

  method SummarizeSessionsLoop(sessions: map<SessionKey, Session>) returns (summaries: map<SessionKey, Record>)
    ensures summaries == SummarizeSessions(sessions)
  {
    summaries := map[];
    var keys := sessions.Keys;
    while keys != {}
      invariant keys <= sessions.Keys
      invariant summaries == SummarizeAmong(sessions, sessions.Keys - keys)
    {
      var k :| k in keys;
      SummarizeNext(sessions, sessions.Keys - keys, k);
      assert sessions.Keys - keys + {k} == sessions.Keys - (keys - {k});
      keys := keys - {k};
      if !Visible(k) {
        continue;
      }
      var summary := SummarizeOne(sessions[k]);
      summaries := summaries[k := summary];
    }
    assert sessions.Keys - keys == sessions.Keys;
    SummarizeAmongAll(sessions);
  }

  ghost function SummarizeAmong(sessions: map<SessionKey, Session>, keys: set<SessionKey>): map<SessionKey, Record> {
    map k | k in sessions && k in keys && Visible(k) :: SummarizeSession(sessions[k])
  }

  lemma SummarizeNext(sessions: map<SessionKey, Session>, keys: set<SessionKey>, k: SessionKey)
    requires k in sessions && k !in keys
    ensures SummarizeAmong(sessions, keys + {k}) ==
      if Visible(k) then SummarizeAmong(sessions, keys)[k := SummarizeSession(sessions[k])] else SummarizeAmong(sessions, keys)
  {
  }

  lemma SummarizeAmongAll(sessions: map<SessionKey, Session>)
    ensures SummarizeAmong(sessions, sessions.Keys) == SummarizeSessions(sessions)
  {
  }

  method SummarizeOne(session: Session) returns (summary: Record)
    ensures summary == SummarizeSession(session)
  {
    summary := session.fields - {"processes"};
    var count := Int(|session.processes|);
    if ReportsCount(session.fields) {
      count := session.fields["process_count"];
    }
    summary := summary["process_count" := count];
    summary := summary["processes" := NoProcesses()];
  }

  // ---------- The loops of merge_heartbeat ----------

  method DropStaleLoop(sessions: map<SessionKey, Session>, status: map<SessionKey, Incoming>)
    returns (kept: map<SessionKey, Session>)
    ensures kept == DropStale(sessions, status, true)
  {
    kept := sessions;
    var stale := set k | k in sessions && Visible(k) && !IsReported(status, k);
    var todo := stale;
    while todo != {}
      invariant todo <= stale
      invariant kept == sessions - (stale - todo)
    {
      var k :| k in todo;
      kept := kept - {k};
      todo := todo - {k};
    }
    assert kept == sessions - stale;
  }

  method MergeSessionsLoop(sessions: map<SessionKey, Session>, status: map<SessionKey, Incoming>, sync: bool)
    returns (merged: map<SessionKey, Session>)
    ensures merged == MergeSessions(sessions, status, sync)
  {
    var kept := sessions;
    if sync {
      kept := DropStaleLoop(sessions, status);
    }
    merged := kept;
    var todo := status.Keys;
    while todo != {}
      invariant todo <= status.Keys
      invariant forall k | k in todo :: Lookup(merged, k) == Lookup(kept, k)
      invariant forall k | k !in todo :: Lookup(merged, k) == MergeEntry(Lookup(kept, k), Lookup(status, k), sync)
    {
      var k :| k in todo;
      assert Lookup(merged, k) == Lookup(kept, k);
      todo := todo - {k};
      if status[k].NotAnObject? {
        continue;
      }
      var target := if k in merged then merged[k] else EMPTY_SESSION;
      var incoming := status[k];
      var fields := target.fields + incoming.fields;
      var processes := target.processes;
      if sync {
        processes := incoming.processes;
      } else if ClearsProcesses(incoming) {
        processes := map[];
      } else {
        processes := MergeProcessesLoop(processes, incoming.processes);
      }
      merged := merged[k := Session(fields, processes)];
    }
    SameSessions(merged, kept, sessions, status, sync);
  }

  lemma SameSessions(merged: map<SessionKey, Session>, kept: map<SessionKey, Session>,
                     sessions: map<SessionKey, Session>, status: map<SessionKey, Incoming>, sync: bool)
    requires kept == DropStale(sessions, status, sync)
    requires forall k :: Lookup(merged, k) == MergeEntry(Lookup(kept, k), Lookup(status, k), sync)
    ensures merged == MergeSessions(sessions, status, sync)
  {
    var m := MergeSessions(sessions, status, sync);
    forall k: SessionKey ensures Lookup(merged, k) == Lookup(m, k) {}
    assert forall k :: k in merged <==> Lookup(merged, k).Some?;
    assert forall k :: k in m <==> Lookup(m, k).Some?;
  }

  method MergeProcessesLoop(current: map<Pid, Record>, reports: map<Pid, Record>)
    returns (merged: map<Pid, Record>)
    ensures merged == MergeProcesses(current, reports)
  {
    merged := current;
    var todo := reports.Keys;
    while todo != {}
      invariant todo <= reports.Keys
      invariant forall pid | pid in todo :: Lookup(merged, pid) == Lookup(current, pid)
      invariant forall pid | pid !in todo :: Lookup(merged, pid) == MergeRecord(Lookup(current, pid), Lookup(reports, pid))
    {
      var pid :| pid in todo;
      var info := reports[pid];
      assert Lookup(merged, pid) == Lookup(current, pid);
      if ReportsStopped(info) {
        merged := merged - {pid};
      } else if pid !in merged {
        merged := merged[pid := info];
      } else {
        merged := merged[pid := merged[pid] + info];
      }
      todo := todo - {pid};
    }
    SameRecords(merged, current, reports);
  }

  lemma SameRecords(merged: map<Pid, Record>, current: map<Pid, Record>, reports: map<Pid, Record>)
    requires forall pid :: Lookup(merged, pid) == MergeRecord(Lookup(current, pid), Lookup(reports, pid))
    ensures merged == MergeProcesses(current, reports)
  {
    var m := MergeProcesses(current, reports);
    forall pid: Pid ensures Lookup(merged, pid) == Lookup(m, pid) {}
    assert forall pid :: pid in merged <==> Lookup(merged, pid).Some?;
    assert forall pid :: pid in m <==> Lookup(m, pid).Some?;
  }

  // ---------- The loops of _detect_events ----------

  function Tag(a: AgentId, events: seq<Event>): (rows: seq<(AgentId, Event)>)
    ensures |rows| == |events| && forall i | 0 <= i < |rows| :: rows[i] == (a, events[i])
  {
    seq(|events|, i requires 0 <= i < |events| => (a, events[i]))
  }

  ghost predicate ListedOutside(e: Event, prev: SeenMap, state: AgentState, todo: set<SessionKey>) {
    exists k, pid :: k !in todo && Occurs(state, k, pid)
      && ListedEvent(Lookup(prev, pid), state.sessions[k], pid, state.sessions[k].processes[pid]) == Some(e)
  }

  method CompareWithPrevious(prev: SeenMap, state: AgentState) returns (current: SeenMap, emitted: seq<Event>)
    ensures Detected(prev, state, current, emitted)
  {
    var listed;
    current, listed := ScanSessions(prev, state);
    var gone := ScanGone(prev, current);
    ListedThenGone(listed, gone, prev, current);
    emitted := listed + gone;
  }

  method ScanSessions(prev: SeenMap, state: AgentState) returns (current: SeenMap, listed: seq<Event>)
    ensures IsProjection(current, state)
    ensures forall e :: e in listed <==> CausedByListing(e, prev, state)
    ensures forall e | e in listed :: e.pid in current
    ensures UniquePids(state) ==> OnePerPid(listed)
  {
    current, listed := map[], [];
    var todo := state.sessions.Keys;
    while todo != {}
      invariant todo <= state.sessions.Keys
      invariant ProjectedOutside(current, state, todo)
      invariant forall e | e in listed :: ListedOutside(e, prev, state, todo)
      invariant forall e | ListedOutside(e, prev, state, todo) :: e in listed
      invariant UniquePids(state) ==> OnePerPid(listed)
    {
      var k :| k in todo;
      if Visible(k) {
        var seen, part := ScanSession(prev, state.sessions[k], current);
        ScanExtends(prev, state, todo, k, listed, part);
        ScanProjects(current, seen, state, todo, k);
        current, listed := seen, listed + part;
      } else {
        HiddenAddsNothing(prev, state, todo, k);
        HiddenProjectsNothing(current, state, todo, k);
      }
      todo := todo - {k};
    }
    NothingLeftToScan(prev, state, current, listed);
  }

  lemma NothingLeftToScan(prev: SeenMap, state: AgentState, current: SeenMap, listed: seq<Event>)
    requires ProjectedOutside(current, state, {})
    requires forall e | e in listed :: ListedOutside(e, prev, state, {})
    requires forall e | ListedOutside(e, prev, state, {}) :: e in listed
    ensures IsProjection(current, state)
    ensures forall e :: e in listed <==> CausedByListing(e, prev, state)
    ensures forall e | e in listed :: e.pid in current
  {
    forall e ensures ListedOutside(e, prev, state, {}) <==> CausedByListing(e, prev, state) {}
    forall e | e in listed ensures e.pid in current {
      assert ListedOutside(e, prev, state, {});
    }
  }

  ghost predicate ProjectedOutside(seen: SeenMap, state: AgentState, todo: set<SessionKey>) {
    && (forall k, pid | Occurs(state, k, pid) && k !in todo :: pid in seen)
    && (forall pid | pid in seen ::
          exists k :: k !in todo && Occurs(state, k, pid) && seen[pid] == SeenAt(state, k, pid))
  }

  function SeenIn(session: Session): SeenMap {
    map pid | pid in session.processes ::
      Seen(IsRunning(session.processes[pid]), Exe(session.processes[pid]), SessionId(session))
  }

  lemma ScanProjects(current: SeenMap, seen: SeenMap, state: AgentState, todo: set<SessionKey>, k: SessionKey)
    requires k in todo && todo <= state.sessions.Keys && Visible(k)
    requires ProjectedOutside(current, state, todo)
    requires seen == current + SeenIn(state.sessions[k])
    ensures ProjectedOutside(seen, state, todo - {k})
  {
    var todo' := todo - {k};
    forall pid | pid in seen
      ensures exists k' :: k' !in todo' && Occurs(state, k', pid) && seen[pid] == SeenAt(state, k', pid)
    {
      if pid in state.sessions[k].processes {
        assert k !in todo' && Occurs(state, k, pid) && seen[pid] == SeenAt(state, k, pid);
      } else {
        var k' :| k' !in todo && Occurs(state, k', pid) && current[pid] == SeenAt(state, k', pid);
        assert k' !in todo' && seen[pid] == SeenAt(state, k', pid);
      }
    }
  }

  lemma HiddenProjectsNothing(current: SeenMap, state: AgentState, todo: set<SessionKey>, k: SessionKey)
    requires k in todo && !Visible(k)
    requires ProjectedOutside(current, state, todo)
    ensures ProjectedOutside(current, state, todo - {k})
  {
    var todo' := todo - {k};
    forall pid | pid in current
      ensures exists k' :: k' !in todo' && Occurs(state, k', pid) && current[pid] == SeenAt(state, k', pid)
    {
      var k' :| k' !in todo && Occurs(state, k', pid) && current[pid] == SeenAt(state, k', pid);
      assert k' !in todo';
    }
  }

  ghost predicate FromSession(e: Event, prev: SeenMap, session: Session, todo: set<Pid>) {
    && e.pid in session.processes && e.pid !in todo
    && ListedEvent(Lookup(prev, e.pid), session, e.pid, session.processes[e.pid]) == Some(e)
  }

  ghost function SeenOutside(session: Session, todo: set<Pid>): SeenMap {
    map pid | pid in SeenIn(session) && pid !in todo :: SeenIn(session)[pid]
  }

  lemma SeenNext(current: SeenMap, session: Session, todo: set<Pid>, pid: Pid)
    requires pid in todo && pid in session.processes
    ensures current + SeenOutside(session, todo - {pid}) == (current + SeenOutside(session, todo))[pid := SeenIn(session)[pid]]
  {
  }

  method ScanSession(prev: SeenMap, session: Session, current: SeenMap)
    returns (seen: SeenMap, emitted: seq<Event>)
    ensures seen == current + SeenIn(session)
    ensures forall e :: e in emitted <==> FromSession(e, prev, session, {})
    ensures OnePerPid(emitted)
  {
    seen, emitted := current, [];
    var sessionId := SessionId(session);
    var todo := session.processes.Keys;
    assert current + SeenOutside(session, todo) == current;
    while todo != {}
      invariant todo <= session.processes.Keys
      invariant seen == current + SeenOutside(session, todo)
      invariant forall e :: e in emitted <==> FromSession(e, prev, session, todo)
      invariant OnePerPid(emitted)
    {
      var pid :| pid in todo;
      var data := session.processes[pid];
      SeenNext(current, session, todo, pid);
      seen := seen[pid := Seen(IsRunning(data), Exe(data), sessionId)];
      var event := CompareProcess(Lookup(prev, pid), session, pid, data);
      forall e ensures FromSession(e, prev, session, todo - {pid}) <==> FromSession(e, prev, session, todo) || event == Some(e) {}
      if event.Some? {
        forall e | e in emitted ensures e.pid != pid {
          assert FromSession(e, prev, session, todo);
        }
        OneMorePid(emitted, event.value);
        emitted := emitted + [event.value];
      }
      todo := todo - {pid};
    }
    assert SeenOutside(session, todo) == SeenIn(session);
  }

  lemma OneMorePid(events: seq<Event>, e: Event)
    requires OnePerPid(events) && forall x | x in events :: x.pid != e.pid
    ensures OnePerPid(events + [e])
  {
    forall i | 0 <= i < |events| ensures events[i].pid != e.pid {
      assert events[i] in events;
    }
  }

  method CompareProcess(was: Option<Seen>, session: Session, pid: Pid, data: Record) returns (event: Option<Event>)
    ensures event == ListedEvent(was, session, pid, data)
  {
    var running, exe, sessionId := IsRunning(data), Exe(data), SessionId(session);
    if was.None? && running {
      return Some(Event(Start, sessionId, pid, exe, None));
    } else if was.Some? && was.value.running && !running {
      var exitCode := GetField(data, "exit_code", Int(-1));
      var kind := if EqualsZero(exitCode) then Stop else Fail;
      return Some(Event(kind, sessionId, pid, exe, Some(exitCode)));
    }
    return None;
  }

  method ScanGone(prev: SeenMap, current: SeenMap) returns (emitted: seq<Event>)
    ensures forall e :: e in emitted <==> CausedByAbsence(e, prev, current)
    ensures OnePerPid(emitted)
  {
    emitted := [];
    var todo := prev.Keys;
    while todo != {}
      invariant todo <= prev.Keys
      invariant forall e :: e in emitted <==> e.pid !in todo && CausedByAbsence(e, prev, current)
      invariant OnePerPid(emitted)
    {
      var pid :| pid in todo;
      if pid !in current && prev[pid].running {
        emitted := emitted + [Event(Disappeared, prev[pid].sessionId, pid, prev[pid].exe, None)];
      }
      todo := todo - {pid};
    }
  }

  lemma ScanExtends(prev: SeenMap, state: AgentState, todo: set<SessionKey>, k: SessionKey,
                    listed: seq<Event>, part: seq<Event>)
    requires k in todo && todo <= state.sessions.Keys && Visible(k)
    requires forall e | e in listed :: ListedOutside(e, prev, state, todo)
    requires forall e | ListedOutside(e, prev, state, todo) :: e in listed
    requires UniquePids(state) ==> OnePerPid(listed)
    requires forall e :: e in part <==> FromSession(e, prev, state.sessions[k], {})
    requires OnePerPid(part)
    ensures forall e | e in listed + part :: ListedOutside(e, prev, state, todo - {k})
    ensures forall e | ListedOutside(e, prev, state, todo - {k}) :: e in listed + part
    ensures UniquePids(state) ==> OnePerPid(listed + part)
  {
    forall e | e in listed + part ensures ListedOutside(e, prev, state, todo - {k}) {
      if e in part {
        assert Occurs(state, k, e.pid);
      } else {
        assert ListedOutside(e, prev, state, todo);
      }
    }
    if UniquePids(state) {
      forall e, e' | e in listed && e' in part ensures e.pid != e'.pid {
        var k', pid' :| k' !in todo && Occurs(state, k', pid')
          && ListedEvent(Lookup(prev, pid'), state.sessions[k'], pid', state.sessions[k'].processes[pid']) == Some(e);
        if e.pid == e'.pid {
          assert Occurs(state, k, e'.pid);
        }
      }
    }
  }

  lemma HiddenAddsNothing(prev: SeenMap, state: AgentState, todo: set<SessionKey>, k: SessionKey)
    requires k in todo && !Visible(k)
    ensures forall e :: ListedOutside(e, prev, state, todo) <==> ListedOutside(e, prev, state, todo - {k})
  {
  }

  lemma ListedThenGone(listed: seq<Event>, gone: seq<Event>, prev: SeenMap, current: SeenMap)
    requires forall e | e in listed :: e.pid in current
    requires forall e | e in gone :: CausedByAbsence(e, prev, current)
    requires OnePerPid(gone)
    ensures OnePerPid(listed) ==> OnePerPid(listed + gone)
  {
    if OnePerPid(listed) {
      var all := listed + gone;
      forall i, j | 0 <= i < j < |all| ensures all[i].pid != all[j].pid {
        if i < |listed| <= j {
          assert all[i] in listed && all[j] in gone;
        }
      }
    }
  }

  // ---------- Cache agreement, operation by operation ----------

  lemma MarkKeepsCache(stats: map<AgentId, AgentState>, prev: map<AgentId, SeenMap>, a: AgentId, connected: bool, now: int)
    ensures CacheAgrees(stats, prev) ==> CacheAgrees(MarkStats(stats, a, connected, now), prev)
  {
    if CacheAgrees(stats, prev) {
      var stats' := MarkStats(stats, a, connected, now);
      forall b ensures IsProjection(SeenOf(prev, b), StateOf(stats', b)) {
        assert IsProjection(SeenOf(prev, b), StateOf(stats, b));
        SameSessionsSameProjection(SeenOf(prev, b), StateOf(stats, b), StateOf(stats', b));
      }
    }
  }

  lemma SameSessionsSameProjection(seen: SeenMap, s: AgentState, s': AgentState)
    requires s.sessions == s'.sessions && IsProjection(seen, s)
    ensures IsProjection(seen, s')
  {
    forall k, pid ensures Occurs(s, k, pid) <==> Occurs(s', k, pid) {}
    forall pid | pid in seen ensures exists k :: Occurs(s', k, pid) && seen[pid] == SeenAt(s', k, pid) {
      var k :| Occurs(s, k, pid) && seen[pid] == SeenAt(s, k, pid);
      assert Occurs(s', k, pid) && seen[pid] == SeenAt(s', k, pid);
    }
  }

  lemma ResetKeepsCache(stats: map<AgentId, AgentState>, prev: map<AgentId, SeenMap>, a: AgentId, now: int)
    ensures CacheAgrees(stats, prev) ==> CacheAgrees(ResetStats(stats, a, now), prev - {a})
  {
    if CacheAgrees(stats, prev) {
      var stats' := ResetStats(stats, a, now);
      var prev' := prev - {a};
      forall b ensures IsProjection(SeenOf(prev', b), StateOf(stats', b)) {
        if b != a {
          assert IsProjection(SeenOf(prev, b), StateOf(stats, b));
        }
      }
    }
  }

  lemma ResetAllKeepsCache(stats: map<AgentId, AgentState>, prev: map<AgentId, SeenMap>, agents: set<AgentId>, now: int)
    ensures CacheAgrees(stats, prev) ==> CacheAgrees(ResetAll(stats, agents, now), prev - agents)
  {
    if CacheAgrees(stats, prev) {
      var stats', prev' := ResetAll(stats, agents, now), prev - agents;
      forall a ensures IsProjection(SeenOf(prev', a), StateOf(stats', a)) {
        if a !in agents {
          assert IsProjection(SeenOf(prev, a), StateOf(stats, a));
        }
      }
    }
  }

  lemma RemoveKeepsCache(stats: map<AgentId, AgentState>, prev: map<AgentId, SeenMap>, a: AgentId)
    ensures CacheAgrees(stats, prev) ==> CacheAgrees(stats - {a}, prev - {a})
  {
    if CacheAgrees(stats, prev) {
      var stats', prev' := stats - {a}, prev - {a};
      forall b ensures IsProjection(SeenOf(prev', b), StateOf(stats', b)) {
        if b != a {
          assert IsProjection(SeenOf(prev, b), StateOf(stats, b));
        }
      }
    }
  }

  lemma HeartbeatKeepsCache(stats: map<AgentId, AgentState>, prev: map<AgentId, SeenMap>, a: AgentId,
                            state: AgentState, seen: SeenMap)
    requires IsProjection(seen, state)
    ensures CacheAgrees(stats, prev) ==> CacheAgrees(stats[a := state], prev[a := seen])
  {
    if CacheAgrees(stats, prev) {
      var stats', prev' := stats[a := state], prev[a := seen];
      forall b ensures IsProjection(SeenOf(prev', b), StateOf(stats', b)) {
        if b != a {
          assert IsProjection(SeenOf(prev, b), StateOf(stats, b));
        }
      }
    }
  }
}
