/**
 What the server shows of its agents, read off the history of the steps taken: whose metrics,
 which connection entry, which sessions; and what the heartbeat deadline means over whole runs.
 */
module Liveness {
  import opened Prelude
  import opened JsonValues
  import opened RuntimeState
  import opened AgentRuntime
  import opened Ownership

  // ---------- Metrics ----------

  // The metrics of the last heartbeat that carried some, since the agent was last removed.
  function LastMetrics(steps: seq<Step>, a: AgentId): Option<Json> {
    if steps == [] then None
    else
      var before := LastMetrics(steps[..|steps| - 1], a);
      match steps[|steps| - 1]
      case Beat(beat, _) => if beat.Agent() == a && beat.metrics.Some? then beat.metrics else before
      case Remove(b) => if b == a then None else before
      case _ => before
  }

  // Over every run the metrics shown are those, also after any number of resets.
  lemma {:induction false} MetricsAreTheLastReported(run: seq<Server>, steps: seq<Step>, n: nat, a: AgentId)
    requires IsRun(run, steps) && n < |run|
    ensures forall v ::
      StateOf(run[n].stats, a).metrics == Present(v) <==> LastMetrics(steps[..n], a) == Some(v)
  {
    if n > 0 {
      MetricsAreTheLastReported(run, steps, n - 1, a);
      assert steps[..n][..n - 1] == steps[..n - 1];
      StepOnMetrics(run[n - 1], steps[n - 1], run[n], a);
    }
  }

  lemma StepOnMetrics(s: Server, step: Step, s': Server, a: AgentId)
    requires Next(s, step, s')
    ensures
      var before, after := StateOf(s.stats, a).metrics, StateOf(s'.stats, a).metrics;
      match step
      case Beat(beat, _) => beat.Agent() == a ==> after == if beat.metrics.Some? then Present(beat.metrics.value) else before
      case Remove(b) => b == a ==> after == Missing
      case _ => forall v :: after == Present(v) <==> before == Present(v)
    ensures
      match step
      case Beat(beat, _) => beat.Agent() != a ==> StateOf(s'.stats, a).metrics == StateOf(s.stats, a).metrics
      case Remove(b) => b != a ==> StateOf(s'.stats, a).metrics == StateOf(s.stats, a).metrics
      case _ => true
  {
  }

  // ---------- The connection entry ----------

  // The last word about an agent: whether it was heard or let go, and at which clock value.
  datatype Word = Word(heard: bool, at: int)

  // Registrations and heartbeats are heard; a reset lets go, but only of an agent that is known;
  // an unregister resets unless it comes from a socket that has been superseded.
  function NextWord(active: map<AgentId, Socket>, step: Step, a: AgentId, before: Option<Word>): Option<Word> {
    match step
    case Register(b, _, now) => if b == a then Some(Word(true, now)) else before
    case Beat(beat, now) => if beat.Agent() == a then Some(Word(true, now)) else before
    case Unregister(b, from, now) =>
      var superseded := from.Some? && a in active && active[a] != from.value;
      if b == a && a != "" && !superseded && before.Some? then Some(Word(false, now)) else before
    case FinishReset(b, now) => if b == a && before.Some? then Some(Word(false, now)) else before
    case Remove(b) => if b == a then None else before
    case _ => before
  }

  function LastWord(run: seq<Server>, steps: seq<Step>, n: nat, a: AgentId): Option<Word>
    requires |run| == |steps| + 1 && n < |run|
  {
    if n == 0 then None else NextWord(run[n - 1].active, steps[n - 1], a, LastWord(run, steps, n - 1, a))
  }

  ghost predicate Shows(state: AgentState, word: Option<Word>) {
    if word.Some? then state.connection == Present(Connection(word.value.heard, word.value.at)) else !state.connection.Present?
  }

  // Over every run the connection entry is the last word, flag and time.
  lemma {:induction false} ConnectionIsTheLastWord(run: seq<Server>, steps: seq<Step>, n: nat, a: AgentId)
    requires IsRun(run, steps) && n < |run|
    ensures Shows(StateOf(run[n].stats, a), LastWord(run, steps, n, a))
  {
    if n > 0 {
      ConnectionIsTheLastWord(run, steps, n - 1, a);
      StepOnConnection(run[n - 1], steps[n - 1], run[n], a, LastWord(run, steps, n - 1, a));
    }
  }

  lemma StepOnConnection(s: Server, step: Step, s': Server, a: AgentId, before: Option<Word>)
    requires Next(s, step, s') && Shows(StateOf(s.stats, a), before)
    ensures Shows(StateOf(s'.stats, a), NextWord(s.active, step, a, before))
  {
  }

  // ---------- The deadline ----------

  function ClockOf(step: Step): Option<int> {
    match step
    case Register(_, _, now) => Some(now)
    case Unregister(_, _, now) => Some(now)
    case FinishReset(_, now) => Some(now)
    case Beat(_, now) => Some(now)
    case _ => None
  }

  // Step `i` is taken at the real time `times[i]`, and reads its clock then, in whole seconds.
  ghost predicate Timed(steps: seq<Step>, times: seq<real>) {
    && |times| == |steps|
    && (forall i, j | 0 <= i < j < |times| :: times[i] <= times[j])
    && (forall i | 0 <= i < |steps| && ClockOf(steps[i]).Some? :: ClockOf(steps[i]).value == times[i].Floor)
  }

  predicate IsHeard(step: Step, a: AgentId) {
    || (step.Register? && step.a == a)
    || (step.Beat? && step.beat.Agent() == a)
  }

  // A last word is as late as the last time the agent was heard, and it was said at some step.
  lemma {:induction false} LastWordIsLate(run: seq<Server>, steps: seq<Step>, times: seq<real>, i: nat, n: nat, a: AgentId)
    requires |run| == |steps| + 1 && Timed(steps, times) && i < n < |run|
    requires IsHeard(steps[i], a)
    ensures LastWord(run, steps, n, a).Some? ==> LastWord(run, steps, n, a).value.at >= times[i].Floor
  {
    if i + 1 < n {
      LastWordIsLate(run, steps, times, i, n - 1, a);
      assert ClockOf(steps[n - 1]).Some? ==> ClockOf(steps[n - 1]).value == times[n - 1].Floor;
      assert times[i] <= times[n - 1];
    } else {
      assert ClockOf(steps[i]).value == times[i].Floor;
    }
  }

  // No scan flags an agent that registered or sent a heartbeat at most fourteen seconds ago,
  // whatever else happened since.
  lemma HeardIsNotTimedOut(run: seq<Server>, steps: seq<Step>, times: seq<real>, i: nat, n: nat, a: AgentId, scan: real)
    requires IsRun(run, steps) && Timed(steps, times) && i < n < |run|
    requires IsHeard(steps[i], a) && scan <= times[i] + 14.0
    ensures !TimedOut(StateOf(run[n].stats, a), scan.Floor, HEARTBEAT_TIMEOUT_SECONDS)
  {
    var state := StateOf(run[n].stats, a);
    if IsConnected(state) {
      ConnectionIsTheLastWord(run, steps, n, a);
      LastWordIsLate(run, steps, times, i, n, a);
      FloorIsMonotonic(scan, times[i] + 14.0);
      assert (times[i] + 14.0).Floor == times[i].Floor + 14;
    }
  }

  lemma LastHeard(active: map<AgentId, Socket>, step: Step, a: AgentId, before: Option<Word>)
    requires NextWord(active, step, a, before).Some? && NextWord(active, step, a, before).value.heard
    ensures
      if IsHeard(step, a) then ClockOf(step) == Some(NextWord(active, step, a, before).value.at)
      else before == NextWord(active, step, a, before)
  {
  }

  // A connected agent was last heard at some step, and nothing has let go of it since; its entry
  // carries the clock of that step.
  lemma {:induction false} ConnectedWasHeard(run: seq<Server>, steps: seq<Step>, times: seq<real>, n: nat, a: AgentId)
    returns (i: nat)
    requires |run| == |steps| + 1 && Timed(steps, times) && n < |run|
    requires LastWord(run, steps, n, a).Some? && LastWord(run, steps, n, a).value.heard
    ensures i < n && IsHeard(steps[i], a) && LastWord(run, steps, n, a).value.at == times[i].Floor
    ensures forall j | i < j < n :: !IsHeard(steps[j], a)
  {
    LastHeard(run[n - 1].active, steps[n - 1], a, LastWord(run, steps, n - 1, a));
    if IsHeard(steps[n - 1], a) {
      i := n - 1;
      assert ClockOf(steps[i]).value == times[i].Floor;
    } else {
      i := ConnectedWasHeard(run, steps, times, n - 1, a);
    }
  }

  // An agent that is still shown connected is flagged by every scan that finds it silent for
  // fifteen seconds or more.
  lemma SilentIsTimedOut(run: seq<Server>, steps: seq<Step>, times: seq<real>, n: nat, a: AgentId, scan: real)
    requires IsRun(run, steps) && Timed(steps, times) && n < |run|
    requires IsConnected(StateOf(run[n].stats, a))
    requires forall j | 0 <= j < n && IsHeard(steps[j], a) :: times[j] + 15.0 <= scan
    ensures TimedOut(StateOf(run[n].stats, a), scan.Floor, HEARTBEAT_TIMEOUT_SECONDS)
  {
    var state := StateOf(run[n].stats, a);
    ConnectionIsTheLastWord(run, steps, n, a);
    var i := ConnectedWasHeard(run, steps, times, n, a);
    assert times[i] + 15.0 <= scan;
    FloorIsMonotonic(times[i] + 15.0, scan);
    assert (times[i] + 15.0).Floor == times[i].Floor + 15;
  }

  // ---------- Sessions ----------

  // What one heartbeat makes of one session of its agent, entry by entry.
  lemma HeartbeatOnSession(s: Server, beat: Heartbeat, now: int, s': Server, k: SessionKey)
    requires Next(s, Step.Beat(beat, now), s')
    ensures
      var before, after := StateOf(s.stats, beat.Agent()).sessions, StateOf(s'.stats, beat.Agent()).sessions;
      var given := beat.status.GetOr(map[]);
      if k in given && given[k].Object? then
        && k in after
        && (forall f | f in given[k].fields :: f in after[k].fields && after[k].fields[f] == given[k].fields[f])
        && (forall f | f in after[k].fields && f !in given[k].fields ::
              k in before && f in before[k].fields && after[k].fields[f] == before[k].fields[f])
        && (k in before ==> before[k].fields.Keys <= after[k].fields.Keys)
        && (beat.sync ==> after[k].processes == given[k].processes)
      else if beat.sync && !("__" <= k) then k !in after
      else (k in after <==> k in before) && (k in after ==> after[k] == before[k])
  {
  }

  // What a delta makes of one process of a session that it reports. The exception is the empty
  // report of a session that counts no processes: it clears the table.
  lemma DeltaOnProcess(s: Server, beat: Heartbeat, now: int, s': Server, k: SessionKey, pid: Pid)
    requires Next(s, Step.Beat(beat, now), s')
    requires !beat.sync && beat.status.Some? && k in beat.status.value && beat.status.value[k].Object?
    ensures
      var before := Known(StateOf(s.stats, beat.Agent()), k);
      var after := Known(StateOf(s'.stats, beat.Agent()), k);
      var given := beat.status.value[k];
      var cleared := given.processes == map[] && "process_count" in given.fields
        && given.fields["process_count"] in {Int(0), Real(0.0), Bool(false)};
      if cleared then after == map[]
      else if pid !in given.processes then
        (pid in after <==> pid in before) && (pid in after ==> after[pid] == before[pid])
      else if "is_running" in given.processes[pid] && given.processes[pid]["is_running"] == Bool(false) then pid !in after
      else if pid !in before then pid in after && after[pid] == given.processes[pid]
      else
        && pid in after
        && (forall f | f in given.processes[pid] :: f in after[pid] && after[pid][f] == given.processes[pid][f])
        && (forall f | f !in given.processes[pid] ::
              (f in after[pid] <==> f in before[pid]) && (f in after[pid] ==> after[pid][f] == before[pid][f]))
  {
    var before, given := Known(StateOf(s.stats, beat.Agent()), k), beat.status.value[k];
    assert Known(StateOf(s'.stats, beat.Agent()), k)
      == if ClearsProcesses(given) then map[] else MergeProcesses(before, given.processes);
    assert ClearsProcesses(given) || pid !in given.processes ||
      Lookup(MergeProcesses(before, given.processes), pid) == MergeRecord(Lookup(before, pid), Some(given.processes[pid]));
  }

  function Known(state: AgentState, k: SessionKey): map<Pid, Record> {
    if k in state.sessions then state.sessions[k].processes else map[]
  }

  // What browsers are shown of an agent: everything about its host, its visible sessions, and of a
  // session everything except the processes, of which only the number is told: the reported one if
  // it is a count, or else how many are held.
  lemma SnapshotShows(stats: map<AgentId, AgentState>, a: AgentId)
    ensures a in SnapshotOf(stats) <==> a in stats
    ensures a in stats ==>
      var shown, state := SnapshotOf(stats)[a], stats[a];
      && shown.metrics == state.metrics && shown.connection == state.connection
      && (forall k: SessionKey :: k in shown.sessions <==> k in state.sessions && !("__" <= k))
  {
  }

  lemma SnapshotShowsSession(stats: map<AgentId, AgentState>, a: AgentId, k: SessionKey)
    requires a in stats && k in stats[a].sessions && !("__" <= k)
    ensures k in SnapshotOf(stats)[a].sessions
    ensures
      var shown, session := SnapshotOf(stats)[a].sessions[k], stats[a].sessions[k];
      var given := if "process_count" in session.fields then session.fields["process_count"] else Null;
      && shown.Keys == session.fields.Keys + {"processes", "process_count"}
      && shown["processes"] == Obj(map[])
      && shown["process_count"] == (if given.Bool? || (given.Int? && given.i >= 0) then given else Int(|session.processes|))
      && forall f | f in session.fields && f != "processes" && f != "process_count" :: shown[f] == session.fields[f]
  {
    SummaryShows(stats[a].sessions[k]);
    assert SnapshotOf(stats)[a].sessions[k] == SummarizeSession(stats[a].sessions[k]);
  }

  lemma SummaryShows(session: Session)
    ensures
      var shown := SummarizeSession(session);
      var given := if "process_count" in session.fields then session.fields["process_count"] else Null;
      && shown.Keys == session.fields.Keys + {"processes", "process_count"}
      && shown["processes"] == Obj(map[])
      && shown["process_count"] == (if given.Bool? || (given.Int? && given.i >= 0) then given else Int(|session.processes|))
      && forall f | f in session.fields && f != "processes" && f != "process_count" :: shown[f] == session.fields[f]
  {
    CountShown(session);
    SummaryFields(session.fields, ShownCount(session));
  }

  lemma SummaryFields(fields: Record, count: Json)
    ensures
      var shown := (fields - {"processes"})["process_count" := count]["processes" := Obj(map[])];
      && shown.Keys == fields.Keys + {"processes", "process_count"}
      && shown["processes"] == Obj(map[]) && shown["process_count"] == count
      && forall f | f in fields && f != "processes" && f != "process_count" :: shown[f] == fields[f]
  {
    assert "process_count" != "processes";
  }

  lemma CountShown(session: Session)
    ensures
      var given := if "process_count" in session.fields then session.fields["process_count"] else Null;
      ShownCount(session) == if given.Bool? || (given.Int? && given.i >= 0) then given else Int(|session.processes|)
  {
  }

  // A reset forgets every session, and another agent's state is untouched by any step.
  lemma OtherAgentsAreUntouched(s: Server, step: Step, s': Server, a: AgentId)
    requires Next(s, step, s')
    requires match step
      case Beat(beat, _) => beat.Agent() != a
      case Register(b, _, _) => b != a
      case Unregister(b, _, _) => b != a
      case FinishReset(b, _) => b != a
      case Remove(b) => b != a
      case _ => true
    ensures StateOf(s'.stats, a) == StateOf(s.stats, a) && SeenOf(s'.prev, a) == SeenOf(s.prev, a)
  {
  }

  lemma ResetForgetsSessions(s: Server, step: Step, s': Server)
    requires Next(s, step, s')
    requires step.FinishReset? || (step.Unregister? && step.a != "" && step.from.None?)
    ensures StateOf(s'.stats, step.a).sessions == map[] && !IsConnected(StateOf(s'.stats, step.a)) && step.a !in s'.prev
  {
  }
}
