/**
 Concrete heartbeats for which the event log does not tell what one might expect: a stopped
 process that turns running without a row, and an exit that a delta does classify.
 */
module EventLogCases {
  import opened Prelude
  import opened JsonValues
  import opened RuntimeState
  import opened EventLog

  const KEY: SessionKey := "console"
  const PID: Pid := 7
  const RUNS: Record := map["is_running" := Bool(true)]
  const STOPPED: Record := map["is_running" := Bool(false)]
  const ZERO: Record := map["is_running" := Int(0)]

  // One session that lists one process.
  function OneProcess(r: Record): AgentState {
    AgentState(Missing, Present(Connection(true, 0)), map[KEY := Session(map[], map[PID := r])])
  }

  function BeatWith(sync: bool, r: Record): Heartbeat {
    Heartbeat("vm", Some(map[KEY := Object(map[], map[PID := r])]), None, sync)
  }

  function SeenAs(r: Record): SeenMap {
    map[PID := Seen(IsRunning(r), Exe(r), Int(0))]
  }

  // The rows that one listed process causes.
  function RowsFor(was: Option<Seen>, r: Record): seq<Event> {
    match ListedEvent(was, Session(map[], map[PID := r]), PID, r)
    case None => []
    case Some(e) => [e]
  }

  lemma OnlyOneProcess(r: Record)
    ensures forall k, pid :: Occurs(OneProcess(r), k, pid) <==> k == KEY && pid == PID
    ensures UniquePids(OneProcess(r)) && IsProjection(SeenAs(r), OneProcess(r))
  {
    assert Visible(KEY) by {
      assert KEY[0] == 'c' && "__"[0] == '_';
    }
    assert Occurs(OneProcess(r), KEY, PID);
    assert SeenAt(OneProcess(r), KEY, PID) == SeenAs(r)[PID];
  }

  lemma FirstSync(r: Record)
    ensures MergeState(EMPTY_STATE, BeatWith(true, r), 0) == OneProcess(r)
  {
    var status := BeatWith(true, r).Status();
    assert DropStale(map[], status, true) == map[];
    assert MergeSessions(map[], status, true) == map[KEY := Session(map[], map[PID := r])];
  }

  lemma NextDelta(held: Record, r: Record)
    requires !ReportsStopped(r)
    ensures MergeState(OneProcess(held), BeatWith(false, r), 0) == OneProcess(held + r)
  {
    var status := BeatWith(false, r).Status();
    var sessions := OneProcess(held).sessions;
    assert MergeProcesses(map[PID := held], map[PID := r]) == map[PID := held + r];
    assert MergeEntry(Lookup(sessions, KEY), Lookup(status, KEY), false) == Some(Session(map[], map[PID := held + r]));
    assert MergeSessions(sessions, status, false) == map[KEY := Session(map[], map[PID := held + r])];
  }

  lemma DetectsOne(prev: SeenMap, r: Record)
    requires prev.Keys <= {PID}
    ensures Detected(prev, OneProcess(r), SeenAs(r), RowsFor(Lookup(prev, PID), r))
  {
    OnlyOneProcess(r);
    var rows := RowsFor(Lookup(prev, PID), r);
    assert OneProcess(r).sessions[KEY] == Session(map[], map[PID := r]);
    forall e: Event ensures e in rows <==> CausedByListing(e, prev, OneProcess(r)) || CausedByAbsence(e, prev, SeenAs(r)) {
      if e in rows {
        assert Occurs(OneProcess(r), KEY, PID);
      }
    }
  }

  // A sync reports a stopped process and a delta reports it running: no row says so, and the
  // log no longer tells which processes run.
  lemma RevivalIsSilent()
    ensures
      var h1, h2 := History(OneProcess(STOPPED), SeenAs(STOPPED), []), History(OneProcess(RUNS), SeenAs(RUNS), []);
      var run, ops := [NEW_AGENT, h1, h2], [Op.Beat(BeatWith(true, STOPPED), 0), Op.Beat(BeatWith(false, RUNS), 0)];
      && IsRun(run, ops)
      && Open(h2.log) == {} && RunningPids(h2.prev) == {PID} && !LogIsExact(run, 2)
  {
    var h1, h2 := History(OneProcess(STOPPED), SeenAs(STOPPED), []), History(OneProcess(RUNS), SeenAs(RUNS), []);
    var run, ops := [NEW_AGENT, h1, h2], [Op.Beat(BeatWith(true, STOPPED), 0), Op.Beat(BeatWith(false, RUNS), 0)];
    FirstSync(STOPPED);
    NextDelta(STOPPED, RUNS);
    assert STOPPED + RUNS == RUNS;
    DetectsOne(map[], STOPPED);
    DetectsOne(SeenAs(STOPPED), RUNS);
    OnlyOneProcess(STOPPED);
    OnlyOneProcess(RUNS);
    assert [] + RowsFor(None, STOPPED) == [] && [] + RowsFor(Some(SeenAs(STOPPED)[PID]), RUNS) == [];
    assert Step(NEW_AGENT, ops[0], h1) && Step(h1, ops[1], h2);
    assert RunningPids(SeenAs(RUNS)) == {PID};
    assert PID !in Open(run[2].log) && PID in RunningPids(run[2].prev);
  }

  // A running process whose delta says 0 instead of False is logged as failed.
  lemma ZeroStatusIsAnExit()
    ensures
      var rows := [Event(Fail, Int(0), PID, Str("unknown"), Some(Int(-1)))];
      Detected(SeenAs(RUNS), MergeState(OneProcess(RUNS), BeatWith(false, ZERO), 0), SeenAs(ZERO), rows)
  {
    NextDelta(RUNS, ZERO);
    assert RUNS + ZERO == ZERO;
    DetectsOne(SeenAs(RUNS), ZERO);
  }
}
