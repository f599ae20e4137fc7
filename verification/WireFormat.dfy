/**
 What a receiver that knows only the names on the wire reads out of the agent's reports, and
 out of the records that the server builds from them.
 */
module WireFormat {
  import opened Prelude
  import opened JsonValues
  import opened RuntimeState
  import opened AgentProcess
  import opened Replication

  // ---------- A reader of records ----------

  datatype Dynamics = Dynamics(
    cpu: real, workingSet: int, privateBytes: int, handles: int, io: Json, exitCode: Json, running: bool)

  function IntAt(r: Record, key: string): Option<int> {
    if key in r && r[key].Int? then Some(r[key].i) else None
  }

  function RealAt(r: Record, key: string): Option<real> {
    if key in r && r[key].Real? then Some(r[key].r) else None
  }

  function BoolAt(r: Record, key: string): Option<bool> {
    if key in r && r[key].Bool? then Some(r[key].b) else None
  }

  function ObjAt(r: Record, key: string): Record {
    if key in r && r[key].Obj? then r[key].fields else map[]
  }

  // Nothing is read unless every figure is there, in its place and of its kind.
  function ReadDynamics(r: Record): Option<Dynamics> {
    var cpu, memory, handles := RealAt(r, "cpu_usage"), ObjAt(r, "memory_usage"), IntAt(r, "handle_count");
    var working, private, running := IntAt(memory, "working_set_size"), IntAt(memory, "private_bytes"), BoolAt(r, "is_running");
    if cpu.Some? && handles.Some? && working.Some? && private.Some? && running.Some? && "io_counters" in r && "exit_code" in r then
      Some(Dynamics(cpu.value, working.value, private.value, handles.value, r["io_counters"], r["exit_code"], running.value))
    else None
  }

  // The figures of a telemetry value, and the status that went with it.
  function DynamicsOf(t: Telemetry, running: bool): Dynamics {
    Dynamics(t.cpuUsage, t.workingSet, t.privateBytes, t.handleCount, t.ioCounters, t.exitCode, running)
  }

  lemma MemoryOnTheWire(t: Telemetry)
    ensures MemoryUsage(t).Obj?
    ensures IntAt(MemoryUsage(t).fields, "working_set_size") == Some(t.workingSet)
    ensures IntAt(MemoryUsage(t).fields, "private_bytes") == Some(t.privateBytes)
  {
  }

  lemma SentIsReadBack(r: Record, s: Sender)
    requires s.lastSend.Some? && forall f | f in FIELDS :: f in r && r[f] == Sent(s)[f]
    ensures ReadDynamics(r) == Some(DynamicsOf(s.lastSend.value, s.sentRunning))
  {
    var t := s.lastSend.value;
    MemoryOnTheWire(t);
    assert r["memory_usage"] == MemoryUsage(t) && r["handle_count"] == Int(t.handleCount);
    assert r["cpu_usage"] == Real(t.cpuUsage) && r["is_running"] == Bool(s.sentRunning);
    assert r["io_counters"] == t.ioCounters && r["exit_code"] == t.exitCode;
  }

  // ---------- Reports ----------

  // What every report says of the process itself.
  lemma ReportNamesTheProcess(s: Sender, sync: bool, probe: Option<int>)
    requires IsInfo(s.info)
    ensures
      var (s', r) := Encode(s, sync, probe);
      r.Some? ==>
        && "pid" in r.value && r.value["pid"] == (if s.pid.Some? then Int(s.pid.value) else Null)
        && BoolAt(r.value, "is_running") == Some(s.status == Code(RUNNING))
  {
    var s0 := Prepared(s, probe);
    PreparedKeepsMemory(s, probe);
    if Encode(s, sync, probe).1.Some? {
      assert Encode(s, sync, probe).1 == Some(Report(s0, sync));
      ReportHeader(s0, sync);
    }
  }

  // A full report: all figures of the telemetry that is remembered as sent, the whole static
  // description, and whether the process is monitored.
  lemma FullReportReadsBack(s: Sender, sync: bool, probe: Option<int>)
    requires IsInfo(s.info) && (sync || s.lastSend.None?)
    ensures
      var (s', r) := Encode(s, sync, probe);
      r.Some? ==>
        && s'.lastSend.Some? && s'.lastSend == s'.tinfo
        && ReadDynamics(r.value) == Some(DynamicsOf(s'.lastSend.value, s.status == Code(RUNNING)))
        && (forall f | f in INFO_FIELDS :: f in r.value && r.value[f] == s.info[f])
        && BoolAt(r.value, "is_monitored") == Some(s.isMonitored)
  {
    var s0 := Prepared(s, probe);
    PreparedKeepsMemory(s, probe);
    var (s', r) := Encode(s, sync, probe);
    if r.Some? {
      assert (s', r) == (Remembered(s0), Some(Report(s0, sync)));
      forall f | f in FIELDS ensures f in r.value && r.value[f] == Sent(s')[f] {
        ReportIsSent(s0, sync, f);
      }
      SentIsReadBack(r.value, s');
      FullReportHasInfo(s0, sync);
    }
  }

  lemma FullReportHasInfo(s: Sender, sync: bool)
    requires s.tinfo.Some? && IsInfo(s.info) && SendsEverything(s, sync)
    ensures forall f | f in INFO_FIELDS :: f in Report(s, sync) && Report(s, sync)[f] == s.info[f]
    ensures "is_monitored" in Report(s, sync) && Report(s, sync)["is_monitored"] == Bool(s.isMonitored)
  {
    InfoIsApart();
  }

  lemma InfoIsApart()
    ensures forall f | f in INFO_FIELDS :: f !in TELEMETRY_FIELDS && f != "is_running" && f != "is_monitored" && f != "pid"
    ensures "is_monitored" !in TELEMETRY_FIELDS
  {
  }

  // A sync asks every process that has a pid or figures for a report; a delta only those that have
  // changed since the last tick, or have no figures yet.
  lemma ReportIsMadeExactly(s: Sender, sync: bool, probe: Option<int>)
    ensures Encode(s, sync, probe).1.Some? <==> (s.tinfo.Some? && (sync || s.itChange)) || (s.tinfo.None? && s.pid.Some?)
  {
  }

  // ---------- The server's records ----------

  // Over every run: a complete record without a doubt, of a process that has reported, reads
  // back as exactly the figures and the status that the agent remembers having sent.
  lemma ServerReadsBack(run: seq<System>, steps: seq<Step>, n: nat, pid: Pid)
    requires IsRun(run, steps) && n < |run|
    requires pid in run[n].agent.procs && run[n].agent.procs[pid].lastSend.Some?
    requires forall d | d in run[n].doubts :: d.pid != pid
    ensures
      var held, s := Drain(run[n].table, run[n].channel), run[n].agent.procs[pid];
      pid in held && IsComplete(held[pid]) ==>
        ReadDynamics(held[pid]) == Some(DynamicsOf(s.lastSend.value, s.sentRunning))
  {
    ServerDiffersExactly(run, steps, n);
    var held, s := Drain(run[n].table, run[n].channel), run[n].agent.procs[pid];
    if pid in held && IsComplete(held[pid]) {
      forall f | f in FIELDS ensures f in held[pid] && held[pid][f] == Sent(s)[f] {
        assert !Differs(held, run[n].agent, Doubt(pid, f));
        assert f in TELEMETRY_FIELDS || f == "is_running";
      }
      SentIsReadBack(held[pid], s);
    }
  }

  ghost predicate HasReported(s: System, pid: Pid) {
    pid in s.agent.procs && s.agent.procs[pid].lastSend.Some?
  }

  lemma BeatReports(s: System, sync: bool, probes: map<Pid, int>, s': System, pid: Pid)
    requires Next(s, Step.Beat(sync, probes), s') && pid in s'.whole
    requires pid in s.whole ==> HasReported(s, pid)
    ensures HasReported(s', pid)
  {
    var reports, before := EncodeAll(s.agent, sync, probes).1.reports, s.agent.procs[pid];
    assert s'.agent.procs[pid] == Encoded(s.agent, sync, probes, pid).0;
    PreparedKeepsMemory(before, Lookup(probes, pid));
    assert pid in reports <==> ReportOf(s.agent, sync, probes, pid).Some?;
  }

  ghost predicate AllReported(s: System) {
    forall pid | pid in s.whole :: HasReported(s, pid)
  }

  lemma StepReports(s: System, step: Step, s': System)
    requires Next(s, step, s') && AllReported(s)
    ensures AllReported(s')
  {
    if step.Beat? {
      forall pid | pid in s'.whole ensures HasReported(s', pid) {
        BeatReports(s, step.sync, step.probes, s', pid);
      }
    } else if step.TickProcess? {
      TickKeepsMemory(s.agent.procs[step.pid], step.now, step.probe, step.reading);
    }
  }

  lemma {:induction false} WholeHasReported(run: seq<System>, steps: seq<Step>, n: nat)
    requires IsRun(run, steps) && n < |run|
    ensures AllReported(run[n])
  {
    if n > 0 {
      WholeHasReported(run, steps, n - 1);
      StepReports(run[n - 1], steps[n - 1], run[n]);
    }
  }

  // In particular every pid whose last full report was followed by nothing that took its record away.
  lemma WholeRecordsReadBack(run: seq<System>, steps: seq<Step>, n: nat, pid: Pid)
    requires IsRun(run, steps) && n < |run| && pid in run[n].whole
    requires forall d | d in run[n].doubts :: d.pid != pid
    ensures HasReported(run[n], pid)
    ensures
      var held, s := Drain(run[n].table, run[n].channel), run[n].agent.procs[pid];
      pid in held && ReadDynamics(held[pid]) == Some(DynamicsOf(s.lastSend.value, s.sentRunning))
  {
    WholeHasReported(run, steps, n);
    ServerRecordIsComplete(run, steps, n, pid);
    ServerReadsBack(run, steps, n, pid);
  }

  // After a sync no doubt is left, and every process that could report reads back in full, whatever
  // was lost or forgotten before.
  lemma SyncIsReadBack(run: seq<System>, steps: seq<Step>, n: nat, probes: map<Pid, int>, pid: Pid)
    requires IsRun(run, steps) && n < |steps| && steps[n] == Step.Beat(true, probes)
    requires pid in run[n].agent.procs && (run[n].agent.procs[pid].pid.Some? || run[n].agent.procs[pid].tinfo.Some?)
    ensures HasReported(run[n + 1], pid)
    ensures
      var held, s := Drain(run[n + 1].table, run[n + 1].channel), run[n + 1].agent.procs[pid];
      && pid in held && ReadDynamics(held[pid]) == Some(DynamicsOf(s.lastSend.value, s.sentRunning))
      && s.lastSend == s.tinfo && s.sentRunning == (s.status == Code(RUNNING))
  {
    assert Next(run[n], steps[n], run[n + 1]);
    SyncMakesWhole(run[n], probes, run[n + 1], pid);
    WholeRecordsReadBack(run, steps, n + 1, pid);
  }

  lemma SyncMakesWhole(s: System, probes: map<Pid, int>, s': System, pid: Pid)
    requires Next(s, Step.Beat(true, probes), s')
    requires pid in s.agent.procs && (s.agent.procs[pid].pid.Some? || s.agent.procs[pid].tinfo.Some?)
    ensures pid in s'.whole && s'.doubts == {} && pid in s'.agent.procs
    ensures
      var p := s'.agent.procs[pid];
      p.lastSend == p.tinfo && p.sentRunning == (p.status == Code(RUNNING))
  {
    var m := EncodeAll(s.agent, true, probes).1;
    ReportIsMadeExactly(s.agent.procs[pid], true, Lookup(probes, pid));
    assert ReportOf(s.agent, true, probes, pid).Some? && pid in m.reports;
    assert s'.agent.procs[pid] == Encoded(s.agent, true, probes, pid).0;
  }
}
