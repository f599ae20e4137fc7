/**
 The server's picture of its agents, as values: what one heartbeat does to one agent's
 state, what the event detector remembers, and which events it emits.
 Everything here is the specification that the class in AgentRuntime.dfy is proved against.
 */
module RuntimeState {
  import opened Prelude
  import opened JsonValues

  type AgentId = string
  type Pid = nat

  const METRICS_KEY := "__agent_metrics"
  const CONNECTION_KEY := "__agent_connection"

  // A session key of a heartbeat. The two bookkeeping keys share the agent's dictionary
  // with the sessions, so a session may not be called by either of those names.
  type SessionKey = k: string | k != METRICS_KEY && k != CONNECTION_KEY witness "session:0"

  // A dictionary entry that can be missing, present as None, or present with a value.
  datatype Slot<+T> = Missing | Nothing | Present(value: T)

  datatype Connection = Connection(connected: bool, lastSeen: int)

  datatype Session = Session(fields: Record, processes: map<Pid, Record>)

  const EMPTY_SESSION := Session(map[], map[])

  datatype AgentState = AgentState(
    metrics: Slot<Json>,
    connection: Slot<Connection>,
    sessions: map<SessionKey, Session>)

  const EMPTY_STATE := AgentState(Missing, Missing, map[])

  datatype Incoming =
    | NotAnObject
    | Object(fields: Record, processes: map<Pid, Record>)

  datatype Heartbeat = Heartbeat(
    clientId: AgentId,
    status: Option<map<SessionKey, Incoming>>,
    metrics: Option<Json>,
    sync: bool)
  {
    function Agent(): AgentId {
      if clientId == "" then "unknown_agent" else clientId
    }

    function Status(): map<SessionKey, Incoming> {
      status.GetOr(map[])
    }
  }

  // Keys starting with two underscores are bookkeeping, never user sessions.
  predicate Visible(k: string) {
    !("__" <= k)
  }

  // ---------- One process record, one session, one agent ----------

  predicate ReportsStopped(r: Record) {
    "is_running" in r && r["is_running"] == Bool(false)
  }

  predicate IsRunning(r: Record) {
    Truthy(GetField(r, "is_running", Bool(false)))
  }

  // A delta report about one pid: a stopped process is dropped, a new one stored, a known
  // one updated field by field.
  function MergeRecord(current: Option<Record>, report: Option<Record>): Option<Record> {
    if report.None? then current
    else if ReportsStopped(report.value) then None
    else if current.None? then report
    else Some(current.value + report.value)
  }

  function MergeProcesses(current: map<Pid, Record>, reports: map<Pid, Record>): map<Pid, Record> {
    map pid |
      pid in current.Keys + reports.Keys && MergeRecord(Lookup(current, pid), Lookup(reports, pid)).Some?
      :: MergeRecord(Lookup(current, pid), Lookup(reports, pid)).value
  }

  predicate ClearsProcesses(incoming: Incoming)
    requires incoming.Object?
  {
    && incoming.processes == map[]
    && "process_count" in incoming.fields
    && EqualsZero(incoming.fields["process_count"])
  }

  function MergeSession(target: Session, incoming: Incoming, sync: bool): Session
    requires incoming.Object?
  {
    Session(
      target.fields + incoming.fields,
      if sync then incoming.processes
      else if ClearsProcesses(incoming) then map[]
      else MergeProcesses(target.processes, incoming.processes))
  }

  predicate IsReported(status: map<SessionKey, Incoming>, k: SessionKey) {
    k in status && status[k].Object?
  }

  // A sync heartbeat first forgets every visible session it does not mention.
  function DropStale(sessions: map<SessionKey, Session>, status: map<SessionKey, Incoming>, sync: bool)
    : map<SessionKey, Session>
  {
    if sync then map k | k in sessions && (!Visible(k) || IsReported(status, k)) :: sessions[k]
    else sessions
  }

  // What a heartbeat does to one session key: an entry that is not an object is ignored.
  function MergeEntry(kept: Option<Session>, incoming: Option<Incoming>, sync: bool): Option<Session> {
    if incoming.None? || incoming.value.NotAnObject? then kept
    else Some(MergeSession(kept.GetOr(EMPTY_SESSION), incoming.value, sync))
  }

  function MergeSessions(sessions: map<SessionKey, Session>, status: map<SessionKey, Incoming>, sync: bool)
    : map<SessionKey, Session>
  {
    var kept := DropStale(sessions, status, sync);
    map k: SessionKey |
      k in kept.Keys + status.Keys && MergeEntry(Lookup(kept, k), Lookup(status, k), sync).Some?
      :: MergeEntry(Lookup(kept, k), Lookup(status, k), sync).value
  }

  function MergeState(state: AgentState, beat: Heartbeat, now: int): AgentState {
    AgentState(
      if beat.metrics.Some? then Present(beat.metrics.value) else state.metrics,
      Present(Connection(true, now)),
      MergeSessions(state.sessions, beat.Status(), beat.sync))
  }

  // Forgetting an agent's sessions while keeping what is known about its host.
  function ResetState(state: AgentState, now: int): AgentState {
    if state.metrics.Present? || state.connection.Present? then
      AgentState(
        if state.metrics.Present? then state.metrics else Nothing,
        if state.connection.Present? then Present(Connection(false, now)) else Nothing,
        map[])
    else EMPTY_STATE
  }

  function MarkState(state: AgentState, connected: bool, now: int): AgentState {
    state.(connection := Present(Connection(connected, now)))
  }

  predicate IsConnected(state: AgentState) {
    state.connection.Present? && state.connection.value.connected
  }

  // ---------- What the event detector remembers ----------

  datatype Seen = Seen(running: bool, exe: Json, sessionId: Json)

  type SeenMap = map<Pid, Seen>

  ghost predicate Occurs(state: AgentState, k: SessionKey, pid: Pid) {
    k in state.sessions && Visible(k) && pid in state.sessions[k].processes
  }

  function SessionId(session: Session): Json {
    GetField(session.fields, "session_id", Int(0))
  }

  function Exe(r: Record): Json {
    GetField(r, "exe", Str("unknown"))
  }

  ghost function SeenAt(state: AgentState, k: SessionKey, pid: Pid): Seen
    requires Occurs(state, k, pid)
  {
    var session := state.sessions[k];
    var r := session.processes[pid];
    Seen(IsRunning(r), Exe(r), SessionId(session))
  }

  // `seen` is the pid/running/exe/session projection of the state. Where a pid is listed
  // by two sessions, either listing may be the one remembered.
  ghost predicate IsProjection(seen: SeenMap, state: AgentState) {
    && (forall k, pid | Occurs(state, k, pid) :: pid in seen)
    && (forall pid | pid in seen :: exists k :: Occurs(state, k, pid) && seen[pid] == SeenAt(state, k, pid))
  }

  ghost predicate UniquePids(state: AgentState) {
    forall k, k', pid | Occurs(state, k, pid) && Occurs(state, k', pid) :: k == k'
  }

  lemma ProjectionIsUnique(s1: SeenMap, s2: SeenMap, state: AgentState)
    requires UniquePids(state)
    requires IsProjection(s1, state) && IsProjection(s2, state)
    ensures s1 == s2
  {
    forall pid | pid in s1 ensures pid in s2 && s1[pid] == s2[pid] {
      var k :| Occurs(state, k, pid) && s1[pid] == SeenAt(state, k, pid);
      assert pid in s2;
    }
    forall pid | pid in s2 ensures pid in s1 {
      var k :| Occurs(state, k, pid) && s2[pid] == SeenAt(state, k, pid);
    }
  }

  // ---------- Events ----------

  datatype EventKind = Start | Stop | Fail | Disappeared

  datatype Event = Event(kind: EventKind, sessionId: Json, pid: Pid, exe: Json, exitCode: Option<Json>)

  // The event caused by one listed process, given what was remembered about its pid.
  function ListedEvent(was: Option<Seen>, session: Session, pid: Pid, r: Record): Option<Event> {
    if was.None? && IsRunning(r) then
      Some(Event(Start, SessionId(session), pid, Exe(r), None))
    else if was.Some? && was.value.running && !IsRunning(r) then
      var code := GetField(r, "exit_code", Int(-1));
      Some(Event(if EqualsZero(code) then Stop else Fail, SessionId(session), pid, Exe(r), Some(code)))
    else None
  }

  function GoneEvent(was: Seen, pid: Pid): Option<Event> {
    if was.running then Some(Event(Disappeared, was.sessionId, pid, was.exe, None)) else None
  }

  ghost predicate CausedByListing(e: Event, prev: SeenMap, state: AgentState) {
    exists k, pid :: Occurs(state, k, pid)
      && ListedEvent(Lookup(prev, pid), state.sessions[k], pid, state.sessions[k].processes[pid]) == Some(e)
  }

  ghost predicate CausedByAbsence(e: Event, prev: SeenMap, seen: SeenMap) {
    e.pid in prev && e.pid !in seen && GoneEvent(prev[e.pid], e.pid) == Some(e)
  }

  ghost predicate OnePerPid(events: seq<Event>) {
    forall i, j | 0 <= i < j < |events| :: events[i].pid != events[j].pid
  }

  // What one run of the detector does: it remembers the new projection and emits exactly
  // the events of the difference, one per pid where pids are unique.
  ghost predicate Detected(prev: SeenMap, state: AgentState, seen: SeenMap, emitted: seq<Event>) {
    && IsProjection(seen, state)
    && (forall e :: e in emitted <==> CausedByListing(e, prev, state) || CausedByAbsence(e, prev, seen))
    && (UniquePids(state) ==> OnePerPid(emitted))
  }
}
