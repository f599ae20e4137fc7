/**
 What the event rows mean: each heartbeat's rows are exactly the difference between two
 projections, and replaying the rows since the last reset tells which processes run.
 */
module EventLog {
  import opened Prelude
  import opened JsonValues
  import opened RuntimeState

  // ---------- One heartbeat ----------

  ghost predicate Emits(emitted: seq<Event>, pid: Pid, kind: EventKind) {
    exists e :: e in emitted && e.pid == pid && e.kind == kind
  }

  ghost predicate Runs(seen: SeenMap, pid: Pid) {
    pid in seen && seen[pid].running
  }

  // With unique pids the rows of one heartbeat are the set difference of what was
  // remembered before and what is remembered now, pid by pid and kind by kind, and each
  // row carries the session and executable of the projection it comes from.
  lemma EventsAreTheDifference(prev: SeenMap, state: AgentState, seen: SeenMap, emitted: seq<Event>)
    requires UniquePids(state) && Detected(prev, state, seen, emitted)
    ensures OnePerPid(emitted)
    ensures forall pid :: Emits(emitted, pid, Start) <==> pid !in prev && Runs(seen, pid)
    ensures forall pid :: Emits(emitted, pid, Disappeared) <==> Runs(prev, pid) && pid !in seen
    ensures forall pid :: Emits(emitted, pid, Stop) || Emits(emitted, pid, Fail) <==>
      Runs(prev, pid) && pid in seen && !seen[pid].running
    ensures forall e | e in emitted ::
      var was := if e.kind == Disappeared then prev else seen;
      e.pid in was && e.sessionId == was[e.pid].sessionId && e.exe == was[e.pid].exe
  {
    forall e | e in emitted && !CausedByAbsence(e, prev, seen)
      ensures e.pid in seen && e.sessionId == seen[e.pid].sessionId && e.exe == seen[e.pid].exe
      ensures e.kind == Start ==> e.pid !in prev && seen[e.pid].running
      ensures e.kind == Stop || e.kind == Fail ==> Runs(prev, e.pid) && !seen[e.pid].running
      ensures e.kind != Disappeared
    {
      ListedEventMatches(prev, state, seen, e);
    }
    forall pid | pid in seen
      ensures pid !in prev && seen[pid].running ==> Emits(emitted, pid, Start)
      ensures Runs(prev, pid) && !seen[pid].running ==> Emits(emitted, pid, Stop) || Emits(emitted, pid, Fail)
    {
      var k :| Occurs(state, k, pid) && seen[pid] == SeenAt(state, k, pid);
      var e := ListedEvent(Lookup(prev, pid), state.sessions[k], pid, state.sessions[k].processes[pid]);
      if e.Some? {
        assert CausedByListing(e.value, prev, state);
        assert e.value in emitted;
      }
    }
    forall pid | Runs(prev, pid) && pid !in seen ensures Emits(emitted, pid, Disappeared) {
      var e := GoneEvent(prev[pid], pid).value;
      assert CausedByAbsence(e, prev, seen);
      assert e in emitted;
    }
  }

  lemma ListedEventMatches(prev: SeenMap, state: AgentState, seen: SeenMap, e: Event)
    requires UniquePids(state) && IsProjection(seen, state) && CausedByListing(e, prev, state)
    ensures e.pid in seen && e.sessionId == seen[e.pid].sessionId && e.exe == seen[e.pid].exe
    ensures e.kind == Start ==> e.pid !in prev && seen[e.pid].running
    ensures e.kind == Stop || e.kind == Fail ==> Runs(prev, e.pid) && !seen[e.pid].running
    ensures e.kind != Disappeared
  {
    var k, pid :| Occurs(state, k, pid)
      && ListedEvent(Lookup(prev, pid), state.sessions[k], pid, state.sessions[k].processes[pid]) == Some(e);
    var k' :| Occurs(state, k', pid) && seen[pid] == SeenAt(state, k', pid);
    assert k == k';
  }

  // The record listed for a pid decides its rows: a process that ran and is no longer running has
  // stopped if its record gives an exit code that equals zero, and has failed if it gives
  // another one, or none.
  lemma EventsOfAListedProcess(prev: SeenMap, state: AgentState, seen: SeenMap, emitted: seq<Event>, k: SessionKey, pid: Pid)
    requires UniquePids(state) && Detected(prev, state, seen, emitted) && Occurs(state, k, pid)
    ensures
      var r := state.sessions[k].processes[pid];
      var running := "is_running" in r && Truthy(r["is_running"]);
      var clean := "exit_code" in r && r["exit_code"] in {Int(0), Real(0.0), Bool(false)};
      && (Emits(emitted, pid, Start) <==> pid !in prev && running)
      && (Emits(emitted, pid, Stop) <==> Runs(prev, pid) && !running && clean)
      && (Emits(emitted, pid, Fail) <==> Runs(prev, pid) && !running && !clean)
      && !Emits(emitted, pid, Disappeared)
    ensures forall e | e in emitted && e.pid == pid ::
      var session := state.sessions[k];
      var r := session.processes[pid];
      && e.exitCode == (if e.kind == Start then None else if "exit_code" in r then Some(r["exit_code"]) else Some(Int(-1)))
      && e.exe == (if "exe" in r then r["exe"] else Str("unknown"))
      && e.sessionId == (if "session_id" in session.fields then session.fields["session_id"] else Int(0))
  {
    var e := ListedEvent(Lookup(prev, pid), state.sessions[k], pid, state.sessions[k].processes[pid]);
    OnlyTheListedEvent(prev, state, seen, emitted, k, pid);
    if e.Some? {
      assert e.value in emitted;
    }
  }

  // Nothing but the event of its one listing is emitted for a listed process.
  lemma OnlyTheListedEvent(prev: SeenMap, state: AgentState, seen: SeenMap, emitted: seq<Event>, k: SessionKey, pid: Pid)
    requires UniquePids(state) && Detected(prev, state, seen, emitted) && Occurs(state, k, pid)
    ensures forall e: Event | e.pid == pid ::
      e in emitted <==> ListedEvent(Lookup(prev, pid), state.sessions[k], pid, state.sessions[k].processes[pid]) == Some(e)
  {
    forall e: Event | e.pid == pid && CausedByListing(e, prev, state)
      ensures ListedEvent(Lookup(prev, pid), state.sessions[k], pid, state.sessions[k].processes[pid]) == Some(e)
    {
      var k', pid' :| Occurs(state, k', pid')
        && ListedEvent(Lookup(prev, pid'), state.sessions[k'], pid', state.sessions[k'].processes[pid']) == Some(e);
      assert pid' == pid && k' == k;
    }
  }

  // A pid that no session lists: if it ran, it disappeared, and the row says what was remembered.
  lemma EventsOfAnAbsentProcess(prev: SeenMap, state: AgentState, seen: SeenMap, emitted: seq<Event>, pid: Pid)
    requires Detected(prev, state, seen, emitted) && forall k :: !Occurs(state, k, pid)
    ensures forall e: Event | e.pid == pid :: e in emitted <==>
      Runs(prev, pid) && e == Event(Disappeared, prev[pid].sessionId, pid, prev[pid].exe, None)
  {
    forall e: Event | e.pid == pid ensures !CausedByListing(e, prev, state) {}
  }

  // Every report carries a boolean is_running field, as the agent's encoder always sends.
  ghost predicate BooleanReports(beat: Heartbeat) {
    forall k: SessionKey, pid: Pid |
      k in beat.Status() && beat.Status()[k].Object? && pid in beat.Status()[k].processes ::
      IsBooleanReport(beat.Status()[k].processes[pid])
  }

  predicate IsBooleanReport(r: Record) {
    "is_running" in r && r["is_running"].Bool?
  }

  function KnownProcesses(state: AgentState, k: SessionKey): map<Pid, Record> {
    Lookup(state.sessions, k).GetOr(EMPTY_SESSION).processes
  }

  // A delta report that turns a record into a non-running one without being recognised as
  // a stop: the merge only drops a record whose report says exactly False.
  ghost predicate QuietExit(before: AgentState, beat: Heartbeat, k: SessionKey, pid: Pid) {
    && Visible(k) && IsReported(beat.Status(), k) && pid in beat.Status()[k].processes
    && var report := beat.Status()[k].processes[pid];
       var known := Lookup(KnownProcesses(before, k), pid).GetOr(map[]);
       !ReportsStopped(report) && !IsRunning(known + report)
  }

  // Exactly when a delta heartbeat classifies an exit: a process that ran is reported with
  // a falsy status other than False. Every other change shows as a start or disappearance.
  lemma DeltaExitsExactly(before: AgentState, prev: SeenMap, beat: Heartbeat, now: int,
                          seen: SeenMap, emitted: seq<Event>, pid: Pid)
    requires UniquePids(before) && IsProjection(prev, before)
    requires !beat.sync && UniquePids(MergeState(before, beat, now))
    requires Detected(prev, MergeState(before, beat, now), seen, emitted)
    ensures Emits(emitted, pid, Stop) || Emits(emitted, pid, Fail) <==>
      Runs(prev, pid) && exists k :: QuietExit(before, beat, k, pid)
  {
    EventsAreTheDifference(prev, MergeState(before, beat, now), seen, emitted);
    if Runs(prev, pid) && pid in seen && !seen[pid].running {
      ExitIsQuiet(before, prev, beat, now, seen, pid);
    }
    if k :| Runs(prev, pid) && QuietExit(before, beat, k, pid) {
      QuietIsExit(before, beat, now, seen, k, pid);
    }
  }

  lemma ExitIsQuiet(before: AgentState, prev: SeenMap, beat: Heartbeat, now: int, seen: SeenMap, pid: Pid)
    requires UniquePids(before) && IsProjection(prev, before)
    requires !beat.sync && IsProjection(seen, MergeState(before, beat, now))
    requires Runs(prev, pid) && pid in seen && !seen[pid].running
    ensures exists k :: QuietExit(before, beat, k, pid)
  {
    var after := MergeState(before, beat, now);
    var k :| Occurs(after, k, pid) && seen[pid] == SeenAt(after, k, pid);
    var k' :| Occurs(before, k', pid) && prev[pid] == SeenAt(before, k', pid);
    DeltaRecord(before, beat, now, k, pid);
    if pid in KnownProcesses(before, k) {
      assert Occurs(before, k, pid);
      assert k == k';
    }
    assert QuietExit(before, beat, k, pid);
  }

  lemma QuietIsExit(before: AgentState, beat: Heartbeat, now: int, seen: SeenMap, k: SessionKey, pid: Pid)
    requires !beat.sync && UniquePids(MergeState(before, beat, now)) && IsProjection(seen, MergeState(before, beat, now))
    requires QuietExit(before, beat, k, pid)
    ensures pid in seen && !seen[pid].running
  {
    var after := MergeState(before, beat, now);
    var current, reports := KnownProcesses(before, k), beat.Status()[k].processes;
    assert after.sessions[k].processes == MergeProcesses(current, reports);
    assert MergeRecord(Lookup(current, pid), Lookup(reports, pid)).Some?;
    assert map[] + reports[pid] == reports[pid];
    assert Occurs(after, k, pid);
    var k' :| Occurs(after, k', pid) && seen[pid] == SeenAt(after, k', pid);
    assert k == k';
  }

  // A listed process after a delta is either unreported and unchanged, or reported and merged.
  lemma DeltaRecord(before: AgentState, beat: Heartbeat, now: int, k: SessionKey, pid: Pid)
    requires !beat.sync && Occurs(MergeState(before, beat, now), k, pid)
    ensures
      var r := MergeState(before, beat, now).sessions[k].processes[pid];
      var current := KnownProcesses(before, k);
      || (pid in current && r == current[pid])
      || (IsReported(beat.Status(), k) && pid in beat.Status()[k].processes
          && !ReportsStopped(beat.Status()[k].processes[pid])
          && r == Lookup(current, pid).GetOr(map[]) + beat.Status()[k].processes[pid])
  {
    var status := beat.Status();
    if IsReported(status, k) && !ClearsProcesses(status[k]) {
      var current := KnownProcesses(before, k);
      var reports := status[k].processes;
      assert MergeState(before, beat, now).sessions[k].processes == MergeProcesses(current, reports);
      assert MergeRecord(Lookup(current, pid), Lookup(reports, pid)).Some?;
      if pid in reports {
        assert map[] + reports[pid] == reports[pid];
      }
    }
  }

  // With boolean reports, which is what the agent's encoder sends, a delta can only make
  // processes appear or disappear.
  lemma DeltaEmitsStartOrDisappeared(before: AgentState, prev: SeenMap, beat: Heartbeat, now: int,
                                     seen: SeenMap, emitted: seq<Event>)
    requires UniquePids(before) && IsProjection(prev, before)
    requires !beat.sync && UniquePids(MergeState(before, beat, now)) && BooleanReports(beat)
    requires Detected(prev, MergeState(before, beat, now), seen, emitted)
    ensures forall e | e in emitted :: e.kind == Start || e.kind == Disappeared
  {
    forall e | e in emitted ensures e.kind == Start || e.kind == Disappeared {
      DeltaExitsExactly(before, prev, beat, now, seen, emitted, e.pid);
      assert Emits(emitted, e.pid, e.kind);
      forall k ensures !QuietExit(before, beat, k, e.pid) {
        if IsReported(beat.Status(), k) && e.pid in beat.Status()[k].processes {
          assert IsBooleanReport(beat.Status()[k].processes[e.pid]);
        }
      }
    }
  }

  // ---------- Replaying the log ----------

  // The processes that the rows leave open.
  function Open(log: seq<Event>): set<Pid> {
    if log == [] then {}
    else
      var before := Open(log[..|log| - 1]);
      var e := log[|log| - 1];
      if e.kind == Start then before + {e.pid} else before - {e.pid}
  }

  // Per process, starts and ends take turns, beginning with a start.
  predicate Alternates(log: seq<Event>) {
    log == [] ||
    var before := log[..|log| - 1];
    var e := log[|log| - 1];
    Alternates(before) && (e.kind == Start <==> e.pid !in Open(before))
  }

  predicate StartsOnlyClosed(log: seq<Event>) {
    log == [] ||
    var before := log[..|log| - 1];
    var e := log[|log| - 1];
    StartsOnlyClosed(before) && (e.kind == Start ==> e.pid !in Open(before))
  }

  lemma {:induction false} OpenAfter(log: seq<Event>, more: seq<Event>)
    requires OnePerPid(more)
    ensures forall pid :: pid in Open(log + more) <==>
      Emits(more, pid, Start) || (pid in Open(log) && forall e | e in more :: e.pid != pid)
    ensures StartsOnlyClosed(log) && (forall e | e in more && e.kind == Start :: e.pid !in Open(log)) ==>
      StartsOnlyClosed(log + more)
    ensures Alternates(log) && (forall e | e in more :: e.kind == Start <==> e.pid !in Open(log)) ==>
      Alternates(log + more)
  {
    if more == [] {
      assert log + more == log;
    } else {
      var rest, e := more[..|more| - 1], more[|more| - 1];
      assert (log + more)[..|log + more| - 1] == log + rest;
      OpenAfter(log, rest);
      assert forall x :: x in more <==> x in rest || x == e;
      forall x | x in rest ensures x.pid != e.pid {}
    }
  }

  ghost function RunningPids(seen: SeenMap): set<Pid> {
    set pid | pid in seen && seen[pid].running
  }

  // A remembered process that was not running and now is: no row says so.
  ghost predicate Revives(prev: SeenMap, seen: SeenMap) {
    exists pid :: pid in prev && !prev[pid].running && Runs(seen, pid)
  }

  lemma BeatKeepsOpenWithin(prev: SeenMap, state: AgentState, seen: SeenMap, emitted: seq<Event>, log: seq<Event>)
    requires UniquePids(state) && Detected(prev, state, seen, emitted)
    requires Open(log) <= RunningPids(prev)
    ensures Open(log + emitted) <= RunningPids(seen)
    ensures StartsOnlyClosed(log) ==> StartsOnlyClosed(log + emitted)
    ensures Open(log) == RunningPids(prev) ==>
      (Open(log + emitted) == RunningPids(seen) <==> !Revives(prev, seen))
    ensures Open(log) == RunningPids(prev) && Alternates(log) ==> Alternates(log + emitted)
  {
    EventsAreTheDifference(prev, state, seen, emitted);
    OpenAfter(log, emitted);
    forall e | e in emitted
      ensures Emits(emitted, e.pid, e.kind)
    {}
    forall pid ensures pid in Open(log + emitted) ==> pid in RunningPids(seen) {
      if pid in Open(log) && pid !in RunningPids(seen) {
        assert Runs(prev, pid);
        assert Emits(emitted, pid, Disappeared) || Emits(emitted, pid, Stop) || Emits(emitted, pid, Fail);
      }
    }
    if Open(log) == RunningPids(prev) {
      if Revives(prev, seen) {
        var pid :| pid in prev && !prev[pid].running && Runs(seen, pid);
        assert pid in RunningPids(seen) && pid !in Open(log + emitted);
      } else {
        forall pid | pid in RunningPids(seen) ensures pid in Open(log + emitted) {
          if pid in prev {
            assert pid in Open(log);
            forall e | e in emitted ensures e.pid != pid {
              assert Emits(emitted, e.pid, e.kind);
            }
          } else {
            assert Emits(emitted, pid, Start);
          }
        }
      }
    }
  }

  // ---------- Whole runs of one agent ----------

  // An agent's merged state, its cache entry, and the rows logged since its last reset.
  datatype History = History(state: AgentState, prev: SeenMap, log: seq<Event>)

  const NEW_AGENT := History(EMPTY_STATE, map[], [])

  datatype Op =
    | Beat(beat: Heartbeat, now: int)
    | Mark(connected: bool, now: int)
    | Reset(now: int)
    | Remove

  ghost predicate Step(h: History, op: Op, h': History) {
    match op
    case Beat(beat, now) =>
      && h'.state == MergeState(h.state, beat, now)
      && exists emitted :: Detected(h.prev, h'.state, h'.prev, emitted) && h'.log == h.log + emitted
    case Mark(connected, now) => h' == h.(state := MarkState(h.state, connected, now))
    case Reset(now) => h' == History(ResetState(h.state, now), map[], [])
    case Remove => h' == NEW_AGENT
  }

  ghost predicate IsRun(run: seq<History>, ops: seq<Op>) {
    && |run| == |ops| + 1
    && run[0] == NEW_AGENT
    && (forall i | 0 <= i < |ops| :: Step(run[i], ops[i], run[i + 1]))
    && (forall i | 0 <= i < |run| :: UniquePids(run[i].state))
  }

  ghost predicate NeverRevives(run: seq<History>, ops: seq<Op>)
    requires |run| == |ops| + 1
  {
    forall i | 0 <= i < |ops| && ops[i].Beat? :: !Revives(run[i].prev, run[i + 1].prev)
  }

  // Over every run: what the rows leave open is running, and no process is started twice.
  lemma {:induction false} OpenIsRunning(run: seq<History>, ops: seq<Op>, n: nat)
    requires IsRun(run, ops) && n < |run|
    ensures Open(run[n].log) <= RunningPids(run[n].prev)
    ensures StartsOnlyClosed(run[n].log)
    ensures IsProjection(run[n].prev, run[n].state)
  {
    if n > 0 {
      OpenIsRunning(run, ops, n - 1);
      var h, h' := run[n - 1], run[n];
      assert Step(h, ops[n - 1], h');
      if ops[n - 1].Beat? {
        var emitted :| Detected(h.prev, h'.state, h'.prev, emitted) && h'.log == h.log + emitted;
        BeatKeepsOpenWithin(h.prev, h'.state, h'.prev, emitted, h.log);
      } else if ops[n - 1].Mark? {
        MarkKeepsProjection(h, ops[n - 1].connected, ops[n - 1].now);
      }
    }
  }

  lemma MarkKeepsProjection(h: History, connected: bool, now: int)
    requires IsProjection(h.prev, h.state)
    ensures IsProjection(h.prev, MarkState(h.state, connected, now))
  {
    var s' := MarkState(h.state, connected, now);
    forall k, pid ensures Occurs(h.state, k, pid) <==> Occurs(s', k, pid) {}
    forall pid | pid in h.prev ensures exists k :: Occurs(s', k, pid) && h.prev[pid] == SeenAt(s', k, pid) {
      var k :| Occurs(h.state, k, pid) && h.prev[pid] == SeenAt(h.state, k, pid);
      assert Occurs(s', k, pid) && h.prev[pid] == SeenAt(s', k, pid);
    }
  }

  ghost predicate LogIsExact(run: seq<History>, n: nat)
    requires n < |run|
  {
    forall i | 0 <= i <= n :: Open(run[i].log) == RunningPids(run[i].prev)
  }

  // The log tells exactly which processes run at every moment of a run if and only if no
  // remembered, stopped process ever turns running again; and then rows alternate.
  lemma LogIsExactIff(run: seq<History>, ops: seq<Op>)
    requires IsRun(run, ops)
    ensures LogIsExact(run, |ops|) <==> NeverRevives(run, ops)
    ensures NeverRevives(run, ops) ==> forall i | 0 <= i < |run| :: Alternates(run[i].log)
  {
    if NeverRevives(run, ops) {
      ExactWhileNoRevival(run, ops, |ops|);
    }
    if LogIsExact(run, |ops|) {
      forall i | 0 <= i < |ops| && ops[i].Beat? ensures !Revives(run[i].prev, run[i + 1].prev) {
        OpenIsRunning(run, ops, i);
        var h, h' := run[i], run[i + 1];
        assert Step(h, ops[i], h');
        var emitted :| Detected(h.prev, h'.state, h'.prev, emitted) && h'.log == h.log + emitted;
        BeatKeepsOpenWithin(h.prev, h'.state, h'.prev, emitted, h.log);
        assert Open(run[i].log) == RunningPids(run[i].prev);
        assert Open(run[i + 1].log) == RunningPids(run[i + 1].prev);
      }
    }
  }

  lemma {:induction false} ExactWhileNoRevival(run: seq<History>, ops: seq<Op>, n: nat)
    requires IsRun(run, ops) && NeverRevives(run, ops) && n < |run|
    ensures LogIsExact(run, n)
    ensures forall i | 0 <= i <= n :: Alternates(run[i].log)
  {
    if n > 0 {
      ExactWhileNoRevival(run, ops, n - 1);
      OpenIsRunning(run, ops, n - 1);
      var h, h' := run[n - 1], run[n];
      assert Step(h, ops[n - 1], h');
      assert Open(run[n - 1].log) == RunningPids(run[n - 1].prev);
      if ops[n - 1].Beat? {
        var emitted :| Detected(h.prev, h'.state, h'.prev, emitted) && h'.log == h.log + emitted;
        BeatKeepsOpenWithin(h.prev, h'.state, h'.prev, emitted, h.log);
      }
    }
  }
}
