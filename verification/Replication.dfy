/**
 The two-sided replication of a session's process table: the agent encodes each process as
 a full record or a delta against what it last sent; heartbeats travel in order; the server
 merges them. Heartbeats may be in flight while either side goes on, the connection may be
 lost, and the server may forget the session at any time.
 */
module Replication {
  import opened Prelude
  import opened JsonValues
  import opened RuntimeState
  import opened AgentProcess

  // The agent's process manager: one sender per pid, and the pids of its last heartbeat.
  datatype Agent = Agent(procs: map<Pid, Sender>, lastReported: set<Pid>)

  datatype Message = Message(sync: bool, count: nat, reports: map<Pid, Record>)

  type Table = map<Pid, Record>

  // ---------- The agent's side ----------

  function Encoded(agent: Agent, sync: bool, probes: map<Pid, int>, pid: Pid): (Sender, Option<Record>)
    requires pid in agent.procs
  {
    Encode(agent.procs[pid], sync, Lookup(probes, pid))
  }

  function GoneReport(pid: Pid): Record {
    map["pid" := Int(pid), "is_running" := Bool(false)]
  }

  function ReportOf(agent: Agent, sync: bool, probes: map<Pid, int>, pid: Pid): Option<Record> {
    if pid in agent.procs then Encoded(agent, sync, probes, pid).1
    else if !sync && pid in agent.lastReported then Some(GoneReport(pid))
    else None
  }

  // Every process reports what changed; a delta also reports the pids that went away.
  function EncodeAll(agent: Agent, sync: bool, probes: map<Pid, int>): (Agent, Message) {
    (Agent(map pid | pid in agent.procs :: Encoded(agent, sync, probes, pid).0, agent.procs.Keys),
     Message(sync, |agent.procs|,
       map pid | pid in agent.procs.Keys + agent.lastReported && ReportOf(agent, sync, probes, pid).Some?
         :: ReportOf(agent, sync, probes, pid).value))
  }

  // ---------- The server's side ----------

  function Apply(table: Table, m: Message): Table {
    if m.sync then m.reports
    else if m.reports == map[] && m.count == 0 then map[]
    else MergeProcesses(table, m.reports)
  }

  // This is what merge_heartbeat does to the session's processes.
  lemma ServerApplies(session: Session, fields: Record, m: Message)
    requires "process_count" in fields && fields["process_count"] == Int(m.count)
    ensures MergeSession(session, Object(fields, m.reports), m.sync).processes == Apply(session.processes, m)
  {
  }

  function Drain(table: Table, channel: seq<Message>): Table
    decreases channel
  {
    if channel == [] then table else Drain(Apply(table, channel[0]), channel[1..])
  }

  lemma {:induction false} DrainAppend(table: Table, channel: seq<Message>, m: Message)
    ensures Drain(table, channel + [m]) == Apply(Drain(table, channel), m)
    decreases channel
  {
    if channel == [] {
      assert Drain(Apply(table, m), []) == Apply(table, m);
    } else {
      DrainAppend(Apply(table, channel[0]), channel[1..], m);
      assert (channel + [m])[1..] == channel[1..] + [m];
    }
  }

  lemma MergedAt(table: Table, reports: map<Pid, Record>, pid: Pid)
    ensures Lookup(MergeProcesses(table, reports), pid) == MergeRecord(Lookup(table, pid), Lookup(reports, pid))
  {
  }

  // A table that holds less: fewer records, or records with fewer fields.
  ghost predicate Below(t1: Table, t2: Table) {
    forall pid | pid in t1 :: pid in t2 && RecordBelow(t1[pid], t2[pid])
  }

  ghost predicate RecordBelow(r1: Record, r2: Record) {
    forall f | f in r1 :: f in r2 && r1[f] == r2[f]
  }

  lemma ApplyIsMonotone(t1: Table, t2: Table, m: Message)
    requires Below(t1, t2)
    ensures Below(Apply(t1, m), Apply(t2, m))
  {
    if !m.sync && !(m.reports == map[] && m.count == 0) {
      forall pid | pid in Apply(t1, m)
        ensures pid in Apply(t2, m) && RecordBelow(Apply(t1, m)[pid], Apply(t2, m)[pid])
      {
        MergedAt(t1, m.reports, pid);
        MergedAt(t2, m.reports, pid);
      }
    }
  }

  lemma {:induction false} DrainIsMonotone(t1: Table, t2: Table, channel: seq<Message>)
    requires Below(t1, t2)
    ensures Below(Drain(t1, channel), Drain(t2, channel))
    decreases channel
  {
    if channel != [] {
      ApplyIsMonotone(t1, t2, channel[0]);
      DrainIsMonotone(Apply(t1, channel[0]), Apply(t2, channel[0]), channel[1..]);
    }
  }

  // ---------- The whole system ----------

  // A field that the server holds for a live process with another value than was last sent.
  datatype Doubt = Doubt(pid: Pid, field: string)

  // `trusted` says that nothing was lost since the last sync. `doubts` follows the fields that
  // came to disagree because heartbeats were lost, or because a process took over a pid that the
  // server still held for another. `whole` collects the pids whose last full report has not been followed by a reported stop
  // or by the server forgetting.
  datatype System = System(
    agent: Agent,
    channel: seq<Message>,
    table: Table,
    trusted: bool,
    doubts: set<Doubt>,
    whole: set<Pid>)

  const START := System(Agent(map[], {}), [], map[], true, {}, {})

  datatype Step =
    | TickProcess(pid: Pid, now: real, probe: Option<int>, reading: Reading)
    | Locally(pid: Pid, changed: Sender)
    | Spawn(pid: Pid, started: Sender)
    | Drop(pid: Pid)
    | Rebind(oldPid: Pid, newPid: Pid)
    | Beat(sync: bool, probes: map<Pid, int>)
    | Deliver
    | Forget
    | Lose

  ghost function WholeAfter(s: System, sync: bool, probes: map<Pid, int>): set<Pid> {
    var reports := EncodeAll(s.agent, sync, probes).1.reports;
    set pid | pid in s.agent.procs &&
      if pid in reports then
        && (SendsEverything(s.agent.procs[pid], sync) || pid in s.whole)
        && (sync || !ReportsStopped(reports[pid]))
      else !sync && pid in s.whole
  }

  const FIELDS: set<string> := TELEMETRY_FIELDS + {"is_running"}

  // What the server should hold in these fields: the last figures and status sent.
  function Sent(s: Sender): (r: Record)
    requires s.lastSend.Some?
    ensures r.Keys == FIELDS
  {
    TelemetryFields(s.lastSend.value)["is_running" := Bool(s.sentRunning)]
  }

  ghost predicate FieldDiffers(record: Record, s: Sender, f: string) {
    s.lastSend.Some? && f in FIELDS && f in record && record[f] != Sent(s)[f]
  }

  ghost predicate Differs(table: Table, agent: Agent, d: Doubt) {
    d.pid in table && d.pid in agent.procs && FieldDiffers(table[d.pid], agent.procs[d.pid], d.field)
  }

  // A doubt outlives a heartbeat exactly if this is a delta in which the process reports
  // nothing, or reports that it runs but not this field.
  ghost predicate Survives(agent: Agent, sync: bool, probes: map<Pid, int>, d: Doubt) {
    !sync && d.pid in agent.procs
    && match Encoded(agent, sync, probes, d.pid).1
       case None => true
       case Some(r) => !ReportsStopped(r) && d.field !in r
  }

  function Moved(s: Sender, newPid: Pid): Sender {
    s.(pid := Some(newPid), itChange := true, hasHandle := false)
  }

  ghost predicate Next(s: System, step: Step, s': System) {
    match step
    case TickProcess(pid, now, probe, reading) =>
      && pid in s.agent.procs
      && s' == s.(agent := s.agent.(procs := s.agent.procs[pid := Tick(s.agent.procs[pid], now, probe, reading)]))
    case Locally(pid, changed) =>
      // Starting, stopping, window tracking: anything that leaves the report memory alone.
      && pid in s.agent.procs && SameReports(s.agent.procs[pid], changed) && IsInfo(changed.info)
      && s' == s.(agent := s.agent.(procs := s.agent.procs[pid := changed]))
    case Spawn(pid, started) =>
      && pid !in s.agent.procs && started.lastSend.None? && IsInfo(started.info)
      && s' == s.(agent := s.agent.(procs := s.agent.procs[pid := started]), whole := s.whole - {pid})
    case Drop(pid) =>
      s' == s.(agent := s.agent.(procs := s.agent.procs - {pid}), whole := s.whole - {pid},
               doubts := set d | d in s.doubts && d.pid != pid)
    case Rebind(oldPid, newPid) =>
      // Whatever process was listed under the new pid is replaced.
      && oldPid in s.agent.procs && newPid != oldPid
      && var moved, held := Moved(s.agent.procs[oldPid], newPid), Drain(s.table, s.channel);
         s' == s.(agent := s.agent.(procs := (s.agent.procs - {oldPid})[newPid := moved]),
                  whole := s.whole - {oldPid, newPid},
                  doubts := (set d | d in s.doubts && d.pid != oldPid && d.pid != newPid) + DoubtsOf(held, moved, newPid))
    case Beat(sync, probes) =>
      var (agent', m) := EncodeAll(s.agent, sync, probes);
      s' == System(agent', s.channel + [m], s.table, s.trusted || sync,
                   (set d | d in s.doubts && Survives(s.agent, sync, probes, d)),
                   WholeAfter(s, sync, probes))
    case Deliver =>
      && s.channel != []
      && s' == s.(table := Apply(s.table, s.channel[0]), channel := s.channel[1..])
    case Forget =>
      s' == s.(table := map[], whole := {},
               doubts := set d | d in s.doubts && Differs(Drain(map[], s.channel), s.agent, d))
    case Lose =>
      s' == s.(channel := [], trusted := false, doubts := AllDoubts(s.table, s.agent), whole := {})
  }

  ghost function AllDoubts(table: Table, agent: Agent): set<Doubt> {
    set pid, f | pid in table && f in table[pid] && Differs(table, agent, Doubt(pid, f)) :: Doubt(pid, f)
  }

  // The fields in which what is held under the new pid differs from what the mover last sent.
  ghost function DoubtsOf(held: Table, moved: Sender, newPid: Pid): set<Doubt> {
    if newPid !in held then {}
    else set f | f in FIELDS && FieldDiffers(held[newPid], moved, f) :: Doubt(newPid, f)
  }

  ghost predicate SameReports(s: Sender, s': Sender) {
    s'.lastSend == s.lastSend && s'.sentRunning == s.sentRunning
  }

  ghost predicate IsRun(run: seq<System>, steps: seq<Step>) {
    && |run| == |steps| + 1
    && run[0] == START
    && forall i | 0 <= i < |steps| :: Next(run[i], steps[i], run[i + 1])
  }

  // ---------- Agreement ----------

  // Every field that the record holds is what the agent last sent for it.
  ghost predicate RecordAgrees(record: Record, s: Sender) {
    forall f :: !FieldDiffers(record, s, f)
  }

  ghost predicate TableAgrees(table: Table, agent: Agent) {
    && table.Keys <= agent.lastReported
    && forall pid | pid in table && pid in agent.procs :: RecordAgrees(table[pid], agent.procs[pid])
  }

  ghost predicate WholeRecords(table: Table, whole: set<Pid>) {
    forall pid | pid in whole :: pid in table && IsComplete(table[pid])
  }

  // The doubts are exactly the fields that differ.
  ghost predicate DoubtsAreExact(table: Table, agent: Agent, doubts: set<Doubt>) {
    forall d :: d in doubts <==> Differs(table, agent, d)
  }

  ghost predicate Inv(s: System) {
    var settled := Drain(s.table, s.channel);
    && (forall pid | pid in s.agent.procs :: IsInfo(s.agent.procs[pid].info))
    && s.whole <= s.agent.procs.Keys
    && DoubtsAreExact(settled, s.agent, s.doubts)
    && (s.trusted ==> settled.Keys <= s.agent.lastReported)
    && WholeRecords(settled, s.whole)
  }

  lemma StepKeepsInv(s: System, step: Step, s': System)
    requires Inv(s) && Next(s, step, s')
    ensures Inv(s')
  {
    match step
    case TickProcess(pid, now, probe, reading) =>
      TickKeepsMemory(s.agent.procs[pid], now, probe, reading);
      LocalStepKeepsInv(s, s', pid);
    case Locally(pid, changed) => LocalStepKeepsInv(s, s', pid);
    case Spawn(pid, started) =>
    case Drop(pid) =>
    case Rebind(oldPid, newPid) => RebindKeepsInv(s, oldPid, newPid, s');
    case Beat(sync, probes) => BeatKeepsInv(s, sync, probes, s');
    case Deliver =>
    case Forget => ForgetKeepsInv(s, s');
    case Lose =>
  }

  lemma LocalStepKeepsInv(s: System, s': System, pid: Pid)
    requires Inv(s) && pid in s.agent.procs && pid in s'.agent.procs
    requires SameReports(s.agent.procs[pid], s'.agent.procs[pid]) && IsInfo(s'.agent.procs[pid].info)
    requires s' == s.(agent := s.agent.(procs := s.agent.procs[pid := s'.agent.procs[pid]]))
    ensures Inv(s')
  {
    SameReportsSameDoubts(s, s', pid);
  }

  lemma RebindKeepsInv(s: System, oldPid: Pid, newPid: Pid, s': System)
    requires Inv(s) && Next(s, Rebind(oldPid, newPid), s')
    ensures Inv(s')
  {
    RebindKeepsDoubts(s, oldPid, newPid, s');
  }

  lemma ForgetKeepsInv(s: System, s': System)
    requires Inv(s) && Next(s, Forget, s')
    ensures Inv(s')
  {
    DrainIsMonotone(map[], s.table, s.channel);
    ForgettingLosesDoubts(Drain(map[], s.channel), Drain(s.table, s.channel), s.agent);
  }

  lemma BeatKeepsInv(s: System, sync: bool, probes: map<Pid, int>, s': System)
    requires Inv(s) && Next(s, Step.Beat(sync, probes), s')
    ensures Inv(s')
  {
    var settled := Drain(s.table, s.channel);
    DrainAppend(s.table, s.channel, EncodeAll(s.agent, sync, probes).1);
    HeartbeatKeepsInfo(s.agent, sync, probes);
    HeartbeatKeepsDoubts(settled, s, sync, probes, s'.doubts);
    if s'.trusted {
      HeartbeatKeys(settled, s.agent, sync, probes);
    }
    HeartbeatKeepsWhole(settled, s, sync, probes);
  }

  lemma RebindKeepsDoubts(s: System, oldPid: Pid, newPid: Pid, s': System)
    requires Inv(s) && Next(s, Rebind(oldPid, newPid), s')
    ensures DoubtsAreExact(Drain(s.table, s.channel), s'.agent, s'.doubts)
  {
    var held, moved := Drain(s.table, s.channel), s'.agent.procs[newPid];
    forall d: Doubt ensures d in s'.doubts <==> Differs(held, s'.agent, d) {
      if d.pid == newPid {
        assert d in DoubtsOf(held, moved, newPid) <==> newPid in held && FieldDiffers(held[newPid], moved, d.field);
      }
    }
  }

  lemma SameReportsSameDoubts(s: System, s': System, pid: Pid)
    requires pid in s.agent.procs && pid in s'.agent.procs && SameReports(s.agent.procs[pid], s'.agent.procs[pid])
    requires s' == s.(agent := s.agent.(procs := s.agent.procs[pid := s'.agent.procs[pid]]))
    ensures forall d :: Differs(Drain(s.table, s.channel), s.agent, d) <==> Differs(Drain(s'.table, s'.channel), s'.agent, d)
  {
  }

  lemma ForgettingLosesDoubts(t1: Table, t2: Table, agent: Agent)
    requires Below(t1, t2)
    ensures forall d | Differs(t1, agent, d) :: Differs(t2, agent, d)
  {
  }

  lemma HeartbeatKeepsInfo(agent: Agent, sync: bool, probes: map<Pid, int>)
    ensures forall pid | pid in agent.procs ::
      EncodeAll(agent, sync, probes).0.procs[pid].info == agent.procs[pid].info
  {
    forall pid | pid in agent.procs ensures Encoded(agent, sync, probes, pid).0.info == agent.procs[pid].info {
      PreparedKeepsMemory(agent.procs[pid], Lookup(probes, pid));
    }
  }

  lemma PreparedKeepsMemory(s: Sender, probe: Option<int>)
    ensures SameMemory(s, Prepared(s, probe))
  {
  }

  // What a report carries is what is remembered as sent; what it leaves out was sent before.
  lemma ReportIsSent(s: Sender, sync: bool, f: string)
    requires s.tinfo.Some? && IsInfo(s.info) && f in FIELDS
    ensures f in Report(s, sync) ==> Report(s, sync)[f] == Sent(Remembered(s))[f]
    ensures f !in Report(s, sync) ==>
      f != "is_running" && !SendsEverything(s, sync) && Sent(Remembered(s))[f] == Sent(s)[f]
  {
    if f == "is_running" {
      ReportHeader(s, sync);
    } else if SendsEverything(s, sync) {
      FullReportHas(s, sync, f);
    } else {
      ChangedMeansDifferent(s.tinfo.value, s.lastSend.value, f);
      DeltaReportHas(s, f);
    }
  }

  lemma FullReportHas(s: Sender, sync: bool, f: string)
    requires s.tinfo.Some? && IsInfo(s.info) && SendsEverything(s, sync) && f in TELEMETRY_FIELDS
    ensures f in Report(s, sync) && Report(s, sync)[f] == TelemetryFields(s.tinfo.value)[f]
  {
  }

  lemma DeltaReportHas(s: Sender, f: string)
    requires s.tinfo.Some? && s.lastSend.Some? && f in TELEMETRY_FIELDS
    ensures f in Report(s, false) <==> FieldChanged(s.tinfo.value, s.lastSend.value, f)
    ensures f in Report(s, false) ==> Report(s, false)[f] == TelemetryFields(s.tinfo.value)[f]
  {
  }

  // One process, one heartbeat: in which fields the record it leads to differs.
  lemma EncodedRecordDiffers(s: Sender, sync: bool, probe: Option<int>, held: Record, f: string)
    requires IsInfo(s.info)
    ensures
      var (s', r) := Encode(s, sync, probe);
      match r
      case None => FieldDiffers(held, s', f) <==> FieldDiffers(held, s, f)
      case Some(r) =>
        && !FieldDiffers(r, s', f)
        && (FieldDiffers(held + r, s', f) <==> FieldDiffers(held, s, f) && f !in r)
  {
    var s0 := Prepared(s, probe);
    PreparedKeepsMemory(s, probe);
    if s0.tinfo.Some? && (sync || s0.itChange) && f in FIELDS {
      assert Encode(s, sync, probe) == (Remembered(s0), Some(Report(s0, sync)));
      ReportIsSent(s0, sync, f);
    }
  }

  // After a heartbeat the differing fields are exactly the doubts that survive it.
  lemma HeartbeatDiffers(table: Table, agent: Agent, sync: bool, probes: map<Pid, int>, d: Doubt)
    requires forall pid | pid in agent.procs :: IsInfo(agent.procs[pid].info)
    ensures
      var (agent', m) := EncodeAll(agent, sync, probes);
      Differs(Apply(table, m), agent', d) <==> Differs(table, agent, d) && Survives(agent, sync, probes, d)
  {
    var pid := d.pid;
    if pid in agent.procs {
      var m := EncodeAll(agent, sync, probes).1;
      MergedAt(table, m.reports, pid);
      assert m.count != 0;
      assert Lookup(m.reports, pid) == ReportOf(agent, sync, probes, pid);
      EncodedRecordDiffers(agent.procs[pid], sync, Lookup(probes, pid), if pid in table then table[pid] else map[], d.field);
    }
  }

  lemma HeartbeatKeys(table: Table, agent: Agent, sync: bool, probes: map<Pid, int>)
    requires sync || table.Keys <= agent.lastReported
    ensures Apply(table, EncodeAll(agent, sync, probes).1).Keys <= agent.procs.Keys
  {
    var m := EncodeAll(agent, sync, probes).1;
    forall pid | pid in Apply(table, m) ensures pid in agent.procs {
      MergedAt(table, m.reports, pid);
      assert Lookup(m.reports, pid) == ReportOf(agent, sync, probes, pid);
      assert ReportsStopped(GoneReport(pid));
    }
  }

  lemma HeartbeatKeepsDoubts(table: Table, s: System, sync: bool, probes: map<Pid, int>, doubts: set<Doubt>)
    requires forall pid | pid in s.agent.procs :: IsInfo(s.agent.procs[pid].info)
    requires DoubtsAreExact(table, s.agent, s.doubts)
    requires doubts == set d | d in s.doubts && Survives(s.agent, sync, probes, d)
    ensures
      var (agent', m) := EncodeAll(s.agent, sync, probes);
      DoubtsAreExact(Apply(table, m), agent', doubts)
  {
    var (agent', m) := EncodeAll(s.agent, sync, probes);
    forall d: Doubt ensures d in doubts <==> Differs(Apply(table, m), agent', d) {
      HeartbeatDiffers(table, s.agent, sync, probes, d);
    }
  }

  lemma HeartbeatKeepsWhole(table: Table, s: System, sync: bool, probes: map<Pid, int>)
    requires forall pid | pid in s.agent.procs :: IsInfo(s.agent.procs[pid].info)
    requires WholeRecords(table, s.whole)
    ensures WholeRecords(Apply(table, EncodeAll(s.agent, sync, probes).1), WholeAfter(s, sync, probes))
  {
    var m := EncodeAll(s.agent, sync, probes).1;
    var table' := Apply(table, m);
    forall pid | pid in WholeAfter(s, sync, probes) ensures pid in table' && IsComplete(table'[pid]) {
      MergedAt(table, m.reports, pid);
      assert Lookup(m.reports, pid) == ReportOf(s.agent, sync, probes, pid);
      if pid in m.reports && SendsEverything(s.agent.procs[pid], sync) {
        FullReportIsComplete(s.agent.procs[pid], sync, Lookup(probes, pid));
      }
    }
  }

  lemma FullReportIsComplete(s: Sender, sync: bool, probe: Option<int>)
    requires IsInfo(s.info) && SendsEverything(s, sync)
    ensures Encode(s, sync, probe).1.Some? ==> IsComplete(Encode(s, sync, probe).1.value)
  {
    var s0 := Prepared(s, probe);
    PreparedKeepsMemory(s, probe);
    if Encode(s, sync, probe).1.Some? {
      assert Encode(s, sync, probe).1 == Some(Report(s0, sync));
      CompleteWhenFull(s0, sync);
    }
  }

  // ---------- Whole runs ----------

  lemma {:induction false} InvHolds(run: seq<System>, steps: seq<Step>, n: nat)
    requires IsRun(run, steps) && n < |run|
    ensures Inv(run[n])
  {
    if n > 0 {
      InvHolds(run, steps, n - 1);
      StepKeepsInv(run[n - 1], steps[n - 1], run[n]);
    }
  }

  // Over every run, losses and changes of pid included: once the heartbeats in flight have
  // arrived, the fields in which the server differs from what was last sent are exactly the
  // doubts; and if nothing was lost since the last sync, it holds no pid that was not reported
  // last time.
  lemma ServerDiffersExactly(run: seq<System>, steps: seq<Step>, n: nat)
    requires IsRun(run, steps) && n < |run|
    ensures DoubtsAreExact(Drain(run[n].table, run[n].channel), run[n].agent, run[n].doubts)
    ensures run[n].trusted ==> Drain(run[n].table, run[n].channel).Keys <= run[n].agent.lastReported
  {
    InvHolds(run, steps, n);
  }

  // Hence, if nothing was lost since the last sync, the server agrees with the agent exactly if
  // there is no doubt.
  lemma ServerAgreesWithAgent(run: seq<System>, steps: seq<Step>, n: nat)
    requires IsRun(run, steps) && n < |run| && run[n].trusted
    ensures TableAgrees(Drain(run[n].table, run[n].channel), run[n].agent) <==> run[n].doubts == {}
  {
    InvHolds(run, steps, n);
    AgreesWithoutDoubts(Drain(run[n].table, run[n].channel), run[n].agent, run[n].doubts);
  }

  lemma AgreesWithoutDoubts(table: Table, agent: Agent, doubts: set<Doubt>)
    requires table.Keys <= agent.lastReported && DoubtsAreExact(table, agent, doubts)
    ensures TableAgrees(table, agent) <==> doubts == {}
  {
    if TableAgrees(table, agent) {
      forall d: Doubt ensures d !in doubts {}
    } else {
      var pid, f :| pid in table && pid in agent.procs && FieldDiffers(table[pid], agent.procs[pid], f);
      assert Differs(table, agent, Doubt(pid, f));
    }
  }

  // There is no doubt at the start and after a sync, and from then on only a loss or a change of
  // pid raises one.
  lemma {:induction false} NoDoubtSince(run: seq<System>, steps: seq<Step>, k: nat, n: nat)
    requires IsRun(run, steps) && k <= n < |run|
    requires k == 0 || (steps[k - 1].Beat? && steps[k - 1].sync)
    requires forall i | k <= i < n :: !steps[i].Rebind? && !steps[i].Lose?
    ensures run[n].trusted && run[n].doubts == {}
  {
    if n > 0 {
      assert Next(run[n - 1], steps[n - 1], run[n]);
      if k < n {
        NoDoubtSince(run, steps, k, n - 1);
      }
    }
  }

  // The record is complete for every pid whose last full report was not followed by a
  // reported stop, a disappearance, a lost connection or the server forgetting.
  lemma ServerRecordIsComplete(run: seq<System>, steps: seq<Step>, n: nat, pid: Pid)
    requires IsRun(run, steps) && n < |run| && pid in run[n].whole
    ensures
      var settled := Drain(run[n].table, run[n].channel);
      pid in settled && IsComplete(settled[pid])
  {
    InvHolds(run, steps, n);
  }

  // A delta sent again with nothing in between changes nothing at the server.
  lemma ResendingChangesNothing(run: seq<System>, steps: seq<Step>, n: nat, probes: map<Pid, int>, probes': map<Pid, int>)
    requires IsRun(run, steps) && n + 2 < |run|
    requires run[n].agent.procs == map[] ==> run[n].trusted
    requires steps[n] == Beat(false, probes) && steps[n + 1] == Beat(false, probes')
    ensures run[n + 2].agent == run[n + 1].agent
    ensures Drain(run[n + 2].table, run[n + 2].channel) == Drain(run[n + 1].table, run[n + 1].channel)
  {
    var s, s1, s2 := run[n], run[n + 1], run[n + 2];
    assert Next(s, steps[n], s1) && Next(s1, steps[n + 1], s2);
    InvHolds(run, steps, n);
    InvHolds(run, steps, n + 1);
    var t1 := Drain(s1.table, s1.channel);
    var m1 := EncodeAll(s.agent, false, probes).1;
    var (agent2, m2) := EncodeAll(s1.agent, false, probes');
    DrainAppend(s.table, s.channel, m1);
    DrainAppend(s1.table, s1.channel, m2);
    ResendKeepsSenders(s.agent, probes, probes');
    forall pid: Pid ensures MergeRecord(Lookup(t1, pid), Lookup(m2.reports, pid)) == Lookup(t1, pid) {
      ResentReportIsNoChange(s.agent, Drain(s.table, s.channel), probes, probes', pid);
    }
    if m2.reports == map[] && m2.count == 0 {
      assert agent2.procs == map[] && s.agent.procs.Keys == agent2.procs.Keys;
      assert t1.Keys <= s1.agent.lastReported;
      assert t1 == map[];
    } else {
      NoReportChangesATable(t1, m2.reports);
    }
  }

  lemma NoReportChangesATable(table: Table, reports: map<Pid, Record>)
    requires forall pid: Pid :: MergeRecord(Lookup(table, pid), Lookup(reports, pid)) == Lookup(table, pid)
    ensures MergeProcesses(table, reports) == table
  {
    var merged := MergeProcesses(table, reports);
    forall pid: Pid ensures Lookup(merged, pid) == Lookup(table, pid) {
      MergedAt(table, reports, pid);
    }
    assert forall pid: Pid :: pid in table <==> Lookup(table, pid).Some?;
    assert forall pid: Pid :: pid in merged <==> Lookup(merged, pid).Some?;
  }

  lemma ResendKeepsSenders(agent: Agent, probes: map<Pid, int>, probes': map<Pid, int>)
    ensures
      var agent1 := EncodeAll(agent, false, probes).0;
      EncodeAll(agent1, false, probes').0 == agent1
  {
    var agent1 := EncodeAll(agent, false, probes).0;
    var agent2 := EncodeAll(agent1, false, probes').0;
    forall pid | pid in agent.procs ensures agent2.procs[pid] == agent1.procs[pid] {
      EncodeAgainSendsNothingNew(agent.procs[pid], false, Lookup(probes, pid), Lookup(probes', pid));
    }
    assert agent2.procs == agent1.procs;
  }

  lemma ResentReportIsNoChange(agent: Agent, t0: Table, probes: map<Pid, int>, probes': map<Pid, int>, pid: Pid)
    requires forall pid | pid in agent.procs :: IsInfo(agent.procs[pid].info)
    ensures
      var (agent1, m1) := EncodeAll(agent, false, probes);
      var t1, m2 := Apply(t0, m1), EncodeAll(agent1, false, probes').1;
      MergeRecord(Lookup(t1, pid), Lookup(m2.reports, pid)) == Lookup(t1, pid)
  {
    var (agent1, m1) := EncodeAll(agent, false, probes);
    var t1, m2 := Apply(t0, m1), EncodeAll(agent1, false, probes').1;
    assert Lookup(m2.reports, pid) == ReportOf(agent1, false, probes', pid);
    if pid in m2.reports {
      var s := agent.procs[pid];
      var s1 := agent1.procs[pid];
      EncodeAgainSendsNothingNew(s, false, Lookup(probes, pid), Lookup(probes', pid));
      FirstReportHoldsPidAndStatus(s, Lookup(probes, pid));
      assert Lookup(m1.reports, pid) == ReportOf(agent, false, probes, pid);
      MergedAt(t0, m1.reports, pid);
      ResentRecord(Lookup(t0, pid), m1.reports[pid], m2.reports[pid], s1);
    }
  }

  lemma ResentRecord(held: Option<Record>, first: Record, again: Record, s: Sender)
    requires "pid" in first && first["pid"] == PidField(s)["pid"]
    requires "is_running" in first && first["is_running"] == Bool(s.sentRunning)
    requires again == PidField(s) + map["is_running" := Bool(s.sentRunning)]
    ensures MergeRecord(MergeRecord(held, Some(first)), Some(again)) == MergeRecord(held, Some(first))
  {
    var merged := MergeRecord(held, Some(first));
    if merged.Some? {
      assert again.Keys == {"pid", "is_running"};
      assert merged.value + again == merged.value;
    }
  }

  lemma FirstReportHoldsPidAndStatus(s: Sender, probe: Option<int>)
    requires IsInfo(s.info)
    ensures
      var (s', r) := Encode(s, false, probe);
      r.Some? ==>
        && "pid" in r.value && r.value["pid"] == PidField(s')["pid"]
        && "is_running" in r.value && r.value["is_running"] == Bool(s'.sentRunning)
  {
    PreparedKeepsMemory(s, probe);
    if Encode(s, false, probe).1.Some? {
      ReportHeader(Prepared(s, probe), false);
    }
  }

  // ---------- Where the hypotheses matter ----------

  // A rebound process sends no static field until the next sync: the receiver of its next
  // delta can only rebuild a partial record.
  lemma ReboundProcessSendsNoStatics(s: Sender, probe: Option<int>)
    requires s.lastSend.Some? && s.tinfo.Some?
    ensures
      var r := Encode(s, false, probe).1;
      r.Some? ==> "exe" !in r.value && !IsComplete(r.value)
  {
    assert "exe" in INFO_FIELDS;
    assert "exe" !in TELEMETRY_FIELDS;
    if s.itChange {
      assert Encode(s, false, probe).1 == Some(Report(s, false));
      assert "exe" !in ChangedFields(s.tinfo.value, s.lastSend.value);
      assert "exe" !in PidField(s);
    }
  }

  // Exactly when a change of pid leaves the server in agreement once the next delta has arrived:
  // the mover was never reported, or does not run, or nothing is held under its new pid, or
  // every figure held there has changed since or happens to be the one last sent.
  ghost predicate SafeToMove(held: Table, mover: Sender, newPid: Pid, t: Telemetry) {
    || mover.lastSend.None? || !Running(mover) || newPid !in held
    || forall f | f in TELEMETRY_FIELDS && f in held[newPid] ::
         || FieldChanged(t, mover.lastSend.value, f)
         || held[newPid][f] == TelemetryFields(mover.lastSend.value)[f]
  }

  // The figures that the next report of the mover is about.
  function FiguresAfterMove(mover: Sender, newPid: Pid, probe: Option<int>): (t: Telemetry) {
    var moved := Moved(mover, newPid);
    if mover.tinfo.Some? then mover.tinfo.value else FallbackTelemetry(newPid, None, FallbackExit(moved, probe))
  }

  lemma RebindAgreesExactly(s: System, s1: System, s2: System, oldPid: Pid, newPid: Pid, probes: map<Pid, int>)
    requires Inv(s) && TableAgrees(Drain(s.table, s.channel), s.agent)
    requires Next(s, Rebind(oldPid, newPid), s1) && Next(s1, Step.Beat(false, probes), s2)
    ensures
      var mover := s.agent.procs[oldPid];
      TableAgrees(Drain(s2.table, s2.channel), s2.agent)
      <==> SafeToMove(Drain(s.table, s.channel), mover, newPid, FiguresAfterMove(mover, newPid, Lookup(probes, newPid)))
  {
    var held, mover := Drain(s.table, s.channel), s.agent.procs[oldPid];
    DrainAppend(s1.table, s1.channel, EncodeAll(s1.agent, false, probes).1);
    OnlyTheMoverDiffers(held, s.agent, s1.agent, oldPid, newPid, probes);
    MoverDiffersExactly(held, mover, newPid, Lookup(probes, newPid));
    assert Encoded(s1.agent, false, probes, newPid) == Encode(Moved(mover, newPid), false, Lookup(probes, newPid));
  }

  // The record under the new pid still differs in this field after the mover's next report.
  ghost predicate StaysWrong(held: Table, mover: Sender, newPid: Pid, report: Option<Record>, f: string) {
    && newPid in held && FieldDiffers(held[newPid], Moved(mover, newPid), f)
    && match report
       case None => true
       case Some(r) => !ReportsStopped(r) && f !in r
  }

  lemma OnlyTheMoverDiffers(held: Table, agent: Agent, agent1: Agent, oldPid: Pid, newPid: Pid, probes: map<Pid, int>)
    requires TableAgrees(held, agent) && oldPid in agent.procs && newPid != oldPid
    requires forall pid | pid in agent.procs :: IsInfo(agent.procs[pid].info)
    requires agent1 == agent.(procs := (agent.procs - {oldPid})[newPid := Moved(agent.procs[oldPid], newPid)])
    ensures
      var (agent2, m) := EncodeAll(agent1, false, probes);
      TableAgrees(Apply(held, m), agent2) <==>
        forall f :: !StaysWrong(held, agent.procs[oldPid], newPid, Encoded(agent1, false, probes, newPid).1, f)
  {
    var (agent2, m) := EncodeAll(agent1, false, probes);
    var after, report := Apply(held, m), Encoded(agent1, false, probes, newPid).1;
    HeartbeatKeys(held, agent1, false, probes);
    AgreesUnlessDiffers(after, agent2);
    forall d: Doubt ensures Differs(after, agent2, d) <==>
      d.pid == newPid && StaysWrong(held, agent.procs[oldPid], newPid, report, d.field)
    {
      MoverDoubt(held, agent, agent1, oldPid, newPid, probes, d);
    }
    if f :| StaysWrong(held, agent.procs[oldPid], newPid, report, f) {
      assert Differs(after, agent2, Doubt(newPid, f));
    }
  }

  lemma MoverDoubt(held: Table, agent: Agent, agent1: Agent, oldPid: Pid, newPid: Pid, probes: map<Pid, int>, d: Doubt)
    requires TableAgrees(held, agent) && oldPid in agent.procs && newPid != oldPid
    requires forall pid | pid in agent.procs :: IsInfo(agent.procs[pid].info)
    requires agent1 == agent.(procs := (agent.procs - {oldPid})[newPid := Moved(agent.procs[oldPid], newPid)])
    ensures
      var (agent2, m) := EncodeAll(agent1, false, probes);
      Differs(Apply(held, m), agent2, d) <==>
        d.pid == newPid && StaysWrong(held, agent.procs[oldPid], newPid, Encoded(agent1, false, probes, newPid).1, d.field)
  {
    HeartbeatDiffers(held, agent1, false, probes, d);
    DiffersBefore(held, agent, agent1, oldPid, newPid, d);
  }

  lemma DiffersBefore(held: Table, agent: Agent, agent1: Agent, oldPid: Pid, newPid: Pid, d: Doubt)
    requires TableAgrees(held, agent) && oldPid in agent.procs && newPid != oldPid
    requires agent1 == agent.(procs := (agent.procs - {oldPid})[newPid := Moved(agent.procs[oldPid], newPid)])
    ensures Differs(held, agent1, d) <==>
      d.pid == newPid && newPid in held && FieldDiffers(held[newPid], Moved(agent.procs[oldPid], newPid), d.field)
  {
  }

  lemma AgreesUnlessDiffers(table: Table, agent: Agent)
    ensures TableAgrees(table, agent) <==> table.Keys <= agent.lastReported && forall d :: !Differs(table, agent, d)
  {
    if table.Keys <= agent.lastReported && !TableAgrees(table, agent) {
      var pid, f :| pid in table && pid in agent.procs && FieldDiffers(table[pid], agent.procs[pid], f);
      assert Differs(table, agent, Doubt(pid, f));
    }
  }

  lemma MoverDiffersExactly(held: Table, mover: Sender, newPid: Pid, probe: Option<int>)
    ensures (forall f :: !StaysWrong(held, mover, newPid, Encode(Moved(mover, newPid), false, probe).1, f))
      <==> SafeToMove(held, mover, newPid, FiguresAfterMove(mover, newPid, probe))
  {
    if mover.lastSend.Some? {
      MoverReports(mover, newPid, probe);
      var report, t := Encode(Moved(mover, newPid), false, probe).1, FiguresAfterMove(mover, newPid, probe);
      forall f ensures StaysWrong(held, mover, newPid, report, f) <==>
        && Running(mover) && newPid in held && f in TELEMETRY_FIELDS && f in held[newPid]
        && !FieldChanged(t, mover.lastSend.value, f) && held[newPid][f] != TelemetryFields(mover.lastSend.value)[f]
      {
        assert "is_running" !in TELEMETRY_FIELDS;
      }
    }
  }

  // The mover always reports: that it stopped, or the figures that changed.
  lemma MoverReports(mover: Sender, newPid: Pid, probe: Option<int>)
    requires mover.lastSend.Some?
    ensures
      var r := Encode(Moved(mover, newPid), false, probe).1;
      && r.Some?
      && (ReportsStopped(r.value) <==> !Running(mover))
      && forall f | f in FIELDS ::
           f in r.value <==> f == "is_running" || FieldChanged(FiguresAfterMove(mover, newPid, probe), mover.lastSend.value, f)
  {
    var s0 := Prepared(Moved(mover, newPid), probe);
    assert Encode(Moved(mover, newPid), false, probe).1 == Some(Report(s0, false));
    assert s0.tinfo == Some(FiguresAfterMove(mover, newPid, probe)) && Running(s0) == Running(mover);
    forall f | f in FIELDS
      ensures f in Report(s0, false) <==>
        f == "is_running" || FieldChanged(FiguresAfterMove(mover, newPid, probe), mover.lastSend.value, f)
    {
      assert f != "pid";
    }
  }

  // ---------- A run in which a change of pid loses the agreement ----------

  function PlainInfo(): (info: Record)
    ensures IsInfo(info)
  {
    map f | f in INFO_FIELDS :: Null
  }

  function Figures(pid: Pid, handles: nat): Telemetry {
    Telemetry(pid, 0.0, 0, 0, handles, Int(RUNNING), Obj(map[]), Null)
  }

  // A running process that has not been reported yet.
  function Fresh(pid: Pid, handles: nat): Sender {
    Sender(Some(pid), true, Code(RUNNING), PlainInfo(), Some(Figures(pid, handles)), None, true, 0, false, 0.0, false)
  }

  // The same process once it has been reported.
  function Reported(pid: Pid, handles: nat): Sender {
    Remembered(Fresh(pid, handles))
  }

  // The process with two handles, restarted under pid 1 with the same figures as before.
  function Restarted(): Sender {
    Moved(Reported(2, 2), 1).(hasHandle := true, tinfo := Some(Figures(1, 2)))
  }

  function TakeoverStart(a: Sender, b: Sender): (steps: seq<Step>)
    ensures |steps| == 5
  {
    [Spawn(1, a), Spawn(2, b)] + [Step.Beat(true, map[])] + [Drop(1)] + [Rebind(2, 1)]
  }

  // Two processes `a` and `b` are reported; the first ends, and the second is restarted under
  // its pid, as `c`, before the next delta.
  function TakeoverSteps(a: Sender, b: Sender, c: Sender): seq<Step> {
    TakeoverStart(a, b) + [Locally(1, c)] + [Step.Beat(false, map[])]
  }

  ghost predicate IsTakeover(a: Sender, b: Sender, c: Sender) {
    && a.tinfo.Some? && a.lastSend.None? && IsInfo(a.info)
    && b.tinfo.Some? && b.lastSend.None? && IsInfo(b.info)
    && SameReports(Remembered(b), c) && IsInfo(c.info) && c.tinfo.Some? && c.itChange && Running(c)
    && TelemetryFields(b.tinfo.value)["handle_count"] != TelemetryFields(a.tinfo.value)["handle_count"]
    && c.tinfo.value.handleCount == b.tinfo.value.handleCount
  }

  ghost function BeatFrom(s: System, sync: bool): System {
    var (agent', m) := EncodeAll(s.agent, sync, map[]);
    System(agent', s.channel + [m], s.table, s.trusted || sync,
           (set d | d in s.doubts && Survives(s.agent, sync, map[], d)), WholeAfter(s, sync, map[]))
  }

  lemma SyncReports(agent: Agent, pid: Pid)
    requires pid in agent.procs && agent.procs[pid].tinfo.Some?
    ensures
      var (agent', m) := EncodeAll(agent, true, map[]);
      && pid in agent'.procs && agent'.procs[pid] == Remembered(agent.procs[pid])
      && pid in m.reports && m.reports[pid] == Report(agent.procs[pid], true)
  {
    assert Encoded(agent, true, map[], pid) == (Remembered(agent.procs[pid]), Some(Report(agent.procs[pid], true)));
    assert ReportOf(agent, true, map[], pid) == Some(Report(agent.procs[pid], true));
  }

  // The state after both have been spawned.
  lemma BothSpawned(a: Sender, b: Sender, c: Sender) returns (s1: System, s2: System)
    requires IsTakeover(a, b, c)
    ensures Next(START, Spawn(1, a), s1) && Next(s1, Spawn(2, b), s2)
    ensures s2.channel == [] && s2.table == map[] && s2.trusted
    ensures 1 in s2.agent.procs && s2.agent.procs[1] == a && 2 in s2.agent.procs && s2.agent.procs[2] == b
  {
    s1 := START.(agent := START.agent.(procs := START.agent.procs[1 := a]), whole := START.whole - {1});
    s2 := s1.(agent := s1.agent.(procs := s1.agent.procs[2 := b]), whole := s1.whole - {2});
  }

  lemma BothReported(s2: System, a: Sender, b: Sender) returns (s3: System)
    requires s2.channel == [] && s2.table == map[] && a.tinfo.Some? && b.tinfo.Some?
    requires 1 in s2.agent.procs && s2.agent.procs[1] == a && 2 in s2.agent.procs && s2.agent.procs[2] == b
    ensures Next(s2, Step.Beat(true, map[]), s3) && s3.trusted
    ensures 2 in s3.agent.procs && s3.agent.procs[2] == Remembered(b)
    ensures
      var held := Drain(s3.table, s3.channel);
      1 in held && held[1] == Report(a, true)
  {
    s3 := BeatFrom(s2, true);
    SyncReports(s2.agent, 1);
    SyncReports(s2.agent, 2);
    var m := EncodeAll(s2.agent, true, map[]).1;
    assert s3.channel == [m];
    DrainAppend(map[], [], m);
    assert Drain(map[], []) == map[] && Apply(map[], m) == m.reports;
  }

  ghost function Dropped(s: System, pid: Pid): System {
    s.(agent := s.agent.(procs := s.agent.procs - {pid}), whole := s.whole - {pid},
       doubts := set d | d in s.doubts && d.pid != pid)
  }

  lemma TakenOver(s4: System, a: Sender, b: Sender, c: Sender) returns (s5: System)
    requires IsTakeover(a, b, c)
    requires 1 !in s4.agent.procs && 2 in s4.agent.procs && s4.agent.procs[2] == Remembered(b)
    requires
      var held := Drain(s4.table, s4.channel);
      1 in held && held[1] == Report(a, true)
    ensures Next(s4, Rebind(2, 1), s5) && Doubt(1, "handle_count") in s5.doubts && s5.trusted == s4.trusted
    ensures 1 in s5.agent.procs && s5.agent.procs[1] == Moved(Remembered(b), 1)
  {
    var moved, held := Moved(Remembered(b), 1), Drain(s4.table, s4.channel);
    s5 := s4.(agent := s4.agent.(procs := (s4.agent.procs - {2})[1 := moved]), whole := s4.whole - {2, 1},
              doubts := (set d | d in s4.doubts && d.pid != 2 && d.pid != 1) + DoubtsOf(held, moved, 1));
    FullReportHas(a, true, "handle_count");
    assert FieldDiffers(held[1], moved, "handle_count");
  }

  lemma RestartedUnderOldPid(s5: System, a: Sender, b: Sender, c: Sender) returns (s6: System, s7: System)
    requires IsTakeover(a, b, c) && Doubt(1, "handle_count") in s5.doubts
    requires 1 in s5.agent.procs && s5.agent.procs[1] == Moved(Remembered(b), 1)
    ensures Next(s5, Locally(1, c), s6) && Next(s6, Step.Beat(false, map[]), s7)
    ensures Doubt(1, "handle_count") in s7.doubts && s7.trusted == s5.trusted
  {
    s6 := s5.(agent := s5.agent.(procs := s5.agent.procs[1 := c]));
    s7 := BeatFrom(s6, false);
    RestartedReportsNoHandles(b, c);
    assert Survives(s6.agent, false, map[], Doubt(1, "handle_count")) by {
      assert Encoded(s6.agent, false, map[], 1) == Encode(c, false, None);
    }
  }

  lemma RestartedReportsNoHandles(b: Sender, c: Sender)
    requires b.tinfo.Some? && SameReports(Remembered(b), c) && IsInfo(c.info) && c.tinfo.Some? && c.itChange && Running(c)
    requires c.tinfo.value.handleCount == b.tinfo.value.handleCount
    ensures
      var r := Encode(c, false, None).1;
      r.Some? && !ReportsStopped(r.value) && "handle_count" !in r.value
  {
    ReportHeader(c, false);
    DeltaReportHas(c, "handle_count");
    assert Encode(c, false, None).1 == Some(Report(c, false));
  }

  lemma OneMoreStep(run: seq<System>, steps: seq<Step>, step: Step, s': System)
    requires IsRun(run, steps) && Next(run[|steps|], step, s')
    ensures IsRun(run + [s'], steps + [step])
  {
    forall i | 0 <= i <= |steps| ensures Next((run + [s'])[i], (steps + [step])[i], (run + [s'])[i + 1]) {
      if i < |steps| {
        assert (run + [s'])[i] == run[i] && (run + [s'])[i + 1] == run[i + 1] && (steps + [step])[i] == steps[i];
      }
    }
  }

  lemma SpawnsRun(a: Sender, b: Sender, c: Sender) returns (run: seq<System>)
    requires IsTakeover(a, b, c)
    ensures IsRun(run, [Spawn(1, a), Spawn(2, b)])
    ensures run[2].channel == [] && run[2].table == map[] && run[2].trusted
    ensures 1 in run[2].agent.procs && run[2].agent.procs[1] == a && 2 in run[2].agent.procs && run[2].agent.procs[2] == b
  {
    var s1, s2 := BothSpawned(a, b, c);
    run := [START, s1, s2];
  }

  lemma ReportedRun(a: Sender, b: Sender, c: Sender) returns (run: seq<System>)
    requires IsTakeover(a, b, c)
    ensures IsRun(run, [Spawn(1, a), Spawn(2, b)] + [Step.Beat(true, map[])])
    ensures run[3].trusted && 2 in run[3].agent.procs && run[3].agent.procs[2] == Remembered(b)
    ensures
      var held := Drain(run[3].table, run[3].channel);
      1 in held && held[1] == Report(a, true)
  {
    var front := SpawnsRun(a, b, c);
    var s3 := BothReported(front[2], a, b);
    OneMoreStep(front, [Spawn(1, a), Spawn(2, b)], Step.Beat(true, map[]), s3);
    run := front + [s3];
  }

  lemma TakenOverRun(a: Sender, b: Sender, c: Sender) returns (run: seq<System>)
    requires IsTakeover(a, b, c)
    ensures IsRun(run, TakeoverStart(a, b))
    ensures run[5].trusted && Doubt(1, "handle_count") in run[5].doubts
    ensures 1 in run[5].agent.procs && run[5].agent.procs[1] == Moved(Remembered(b), 1)
  {
    var front := ReportedRun(a, b, c);
    var s4 := Dropped(front[3], 1);
    var s5 := TakenOver(s4, a, b, c);
    var steps := [Spawn(1, a), Spawn(2, b)] + [Step.Beat(true, map[])];
    OneMoreStep(front, steps, Drop(1), s4);
    OneMoreStep(front + [s4], steps + [Drop(1)], Rebind(2, 1), s5);
    run := front + [s4] + [s5];
  }

  lemma TakeoverRun(a: Sender, b: Sender, c: Sender) returns (run: seq<System>)
    requires IsTakeover(a, b, c)
    ensures IsRun(run, TakeoverSteps(a, b, c)) && run[7].trusted && Doubt(1, "handle_count") in run[7].doubts
  {
    var front := TakenOverRun(a, b, c);
    var steps := TakeoverStart(a, b);
    var s6, s7 := RestartedUnderOldPid(front[5], a, b, c);
    OneMoreStep(front, steps, Locally(1, c), s6);
    OneMoreStep(front + [s6], steps + [Locally(1, c)], Step.Beat(false, map[]), s7);
    run := front + [s6] + [s7];
  }

  // It happens: the restarted process has the handle count that it last sent, so its delta leaves
  // it out, and the server goes on holding the handle count of the process that ended.
  lemma TakeoverLosesAgreement() returns (run: seq<System>)
    ensures
      var steps := TakeoverSteps(Fresh(1, 1), Fresh(2, 2), Restarted());
      && IsRun(run, steps) && run[7].trusted
      && Doubt(1, "handle_count") in run[7].doubts
      && !TableAgrees(Drain(run[7].table, run[7].channel), run[7].agent)
  {
    run := TakeoverRun(Fresh(1, 1), Fresh(2, 2), Restarted());
    ServerAgreesWithAgent(run, TakeoverSteps(Fresh(1, 1), Fresh(2, 2), Restarted()), 7);
  }
}
