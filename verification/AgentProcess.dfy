/**
 The agent's view of one Windows process and the encoder of its heartbeat reports. Results
 of Win32 calls and of the telemetry provider are inputs of the operations that make them.
 */
module AgentProcess {
  import opened Prelude
  import opened JsonValues

  // ---------- Values ----------

  // Exit codes that double as process states.
  const UNKNOWN: int := -1
  const RUNNING: int := 259
  const ACCESS_DENIED: int := 5
  const FAILED: int := 1
  predicate IsKnownCode(code: int) {
    || code == UNKNOWN || code == ACCESS_DENIED || code == RUNNING || code == FAILED
    || code == -9999 || code == 0 || code == 2 || code == 1067 || code == 128 || code == 109 || code == 459998
  }

  datatype Status = NoStatus | Code(code: int)

  datatype Telemetry = Telemetry(
    pid: int,
    cpuUsage: real,
    workingSet: int,
    privateBytes: int,
    handleCount: int,
    exitCode: Json,
    ioCounters: Json,
    netUsage: Json)

  // The static description of a process, sent under these names.
  const INFO_FIELDS: set<string> := {
    "exe", "exe_path", "args", "cmd", "cwd", "user", "ppid", "sessionid", "creation_time",
    "has_window", "window_title", "window_hwnd", "windows", "capture_target_pid", "capture_target_kind"}

  const TELEMETRY_FIELDS: set<string> := {"cpu_usage", "memory_usage", "handle_count", "io_counters", "exit_code"}

  ghost predicate IsInfo(info: Record) {
    info.Keys == INFO_FIELDS
  }

  // One process object. `sentRunning` is the is_running flag of the last report.
  datatype Sender = Sender(
    pid: Option<int>,
    hasHandle: bool,
    status: Status,
    info: Record,
    tinfo: Option<Telemetry>,
    lastSend: Option<Telemetry>,
    itChange: bool,
    downTime: nat,
    isMonitored: bool,
    nextUpdate: real,
    sentRunning: bool)

  datatype Reading = Raised | NoData | Data(t: Telemetry)

  function ZeroCounters(): Json {
    Obj(map["read_bytes" := Int(0), "write_bytes" := Int(0), "other_bytes" := Int(0),
            "read_bps" := Real(0.0), "write_bps" := Real(0.0), "other_bps" := Real(0.0)])
  }

  predicate Running(s: Sender) {
    s.status == Code(RUNNING)
  }

  // `probe` is what GetExitCodeProcess answers, None when it raises.
  function ExitCode(s: Sender, probe: Option<int>): Option<int> {
    if s.status == Code(ACCESS_DENIED) then Some(ACCESS_DENIED)
    else if !s.hasHandle then Some(FAILED)
    else probe
  }

  // A status that became "access denied" is never left again.
  function WithState(s: Sender, status: Status): Sender {
    if s.status == status then s
    else if s.status == Code(ACCESS_DENIED) then s.(itChange := false)
    else s.(itChange := true, status := status)
  }

  function Checked(s: Sender, probe: Option<int>): Sender {
    var code := ExitCode(s, probe);
    WithState(s, if code.Some? && IsKnownCode(code.value) then Code(code.value) else Code(UNKNOWN))
  }

  function FallbackExit(s: Sender, probe: Option<int>): Json {
    var code := ExitCode(s, probe);
    if code.Some? then Int(code.value) else if s.status.Code? then Int(s.status.code) else Null
  }

  // A stand-in reading: the last figures if there are any, and the exit code.
  function FallbackTelemetry(pid: int, last: Option<Telemetry>, exit: Json): Telemetry {
    match last
    case None => Telemetry(pid, 0.0, 0, 0, 0, exit, ZeroCounters(), Null)
    case Some(t) =>
      Telemetry(pid, t.cpuUsage, t.workingSet, t.privateBytes, t.handleCount, exit,
                if Truthy(t.ioCounters) then t.ioCounters else ZeroCounters(), Null)
  }

  function EnsureFallback(s: Sender, probe: Option<int>): Sender {
    if s.pid.None? then s
    else s.(tinfo := Some(FallbackTelemetry(s.pid.value, s.tinfo, FallbackExit(s, probe))), itChange := true)
  }

  // Takes one answer of the telemetry provider.
  function Refresh(s: Sender, probe: Option<int>, answer: Reading): Sender {
    match answer
    case Raised => if s.tinfo.None? then EnsureFallback(s, probe) else s
    case NoData => if s.tinfo.None? then EnsureFallback(s, probe) else s
    case Data(t) => if Some(t) != s.lastSend then s.(tinfo := Some(t), itChange := true) else s
  }

  function Tick(s: Sender, now: real, probe: Option<int>, reading: Reading): Sender {
    var s := Checked(s.(itChange := false), probe);
    if s.status == Code(ACCESS_DENIED) then s.(itChange := false, downTime := s.downTime + 1)
    else if !Running(s) && s.isMonitored then s.(downTime := s.downTime + 1)
    else if now < s.nextUpdate then s
    else Refresh(s, probe, if s.hasHandle then reading else Raised).(nextUpdate := now + 1.0)
  }

  // ---------- The encoding ----------

  function MemoryUsage(t: Telemetry): Json {
    Obj(map["working_set_size" := Int(t.workingSet), "private_bytes" := Int(t.privateBytes)])
  }

  function TelemetryFields(t: Telemetry): (r: Record)
    ensures r.Keys == TELEMETRY_FIELDS
  {
    map["cpu_usage" := Real(t.cpuUsage), "memory_usage" := MemoryUsage(t), "handle_count" := Int(t.handleCount),
        "io_counters" := t.ioCounters, "exit_code" := t.exitCode]
  }

  // The fields of `t` whose underlying numbers differ from those last sent.
  function ChangedFields(t: Telemetry, l: Telemetry): Record {
    map f | f in TelemetryFields(t) && FieldChanged(t, l, f) :: TelemetryFields(t)[f]
  }

  predicate FieldChanged(t: Telemetry, l: Telemetry, f: string) {
    || (f == "cpu_usage" && t.cpuUsage != l.cpuUsage)
    || (f == "memory_usage" && (t.workingSet != l.workingSet || t.privateBytes != l.privateBytes))
    || (f == "handle_count" && t.handleCount != l.handleCount)
    || (f == "io_counters" && t.ioCounters != l.ioCounters)
    || (f == "exit_code" && t.exitCode != l.exitCode)
  }

  function PidField(s: Sender): Record {
    map["pid" := if s.pid.Some? then Int(s.pid.value) else Null]
  }

  predicate SendsEverything(s: Sender, sync: bool) {
    sync || s.lastSend.None?
  }

  function Report(s: Sender, sync: bool): Record
    requires s.tinfo.Some?
  {
    var t := s.tinfo.value;
    (if SendsEverything(s, sync) then PidField(s) + s.info["is_monitored" := Bool(s.isMonitored)] + TelemetryFields(t)
     else PidField(s) + ChangedFields(t, s.lastSend.value))
    + map["is_running" := Bool(Running(s))]
  }

  // Encoding remembers what was sent; it does not clear the change flag.
  function Encode(s: Sender, sync: bool, probe: Option<int>): (Sender, Option<Record>) {
    var s := Prepared(s, probe);
    if s.tinfo.None? || (!sync && !s.itChange) then (s, None)
    else (Remembered(s), Some(Report(s, sync)))
  }

  function Prepared(s: Sender, probe: Option<int>): Sender {
    if s.tinfo.None? then EnsureFallback(s, probe) else s
  }

  function Remembered(s: Sender): Sender {
    s.(lastSend := s.tinfo, sentRunning := Running(s))
  }

  // ---------- The object ----------

  class Process {
    var pid: Option<int>
    var hasHandle: bool
    var status: Status
    var info: Record
    var tinfo: Option<Telemetry>
    var lastSend: Option<Telemetry>
    var itChange: bool
    var downTime: nat
    var isMonitored: bool
    var nextUpdate: real
    ghost var sentRunning: bool

    ghost function Value(): Sender
      reads this
    {
      Sender(pid, hasHandle, status, info, tinfo, lastSend, itChange, downTime, isMonitored, nextUpdate, sentRunning)
    }

    constructor (info: Record, firstUpdate: real)
      requires IsInfo(info)
      ensures Value() == Sender(None, false, NoStatus, info, None, None, false, 0, false, firstUpdate, false)
    {
      pid, hasHandle, status := None, false, NoStatus;
      this.info, tinfo, lastSend := info, None, None;
      itChange, downTime, isMonitored := false, 0, false;
      nextUpdate, sentRunning := firstUpdate, false;
    }

    method SetState(newStatus: Status)
      modifies this`status, this`itChange
      ensures Value() == WithState(old(Value()), newStatus)
    {
      if status == newStatus {
        return;
      }
      if status == Code(ACCESS_DENIED) {
        itChange := false;
        return;
      }
      itChange := true;
      status := newStatus;
    }

    method GetExitCode(probe: Option<int>) returns (code: Option<int>)
      ensures code == ExitCode(Value(), probe)
    {
      if status == Code(ACCESS_DENIED) {
        return Some(ACCESS_DENIED);
      }
      if !hasHandle {
        return Some(FAILED);
      }
      return probe;
    }

    method CheckState(probe: Option<int>)
      modifies this`status, this`itChange
      ensures Value() == Checked(old(Value()), probe)
    {
      var code := GetExitCode(probe);
      if code.Some? && IsKnownCode(code.value) {
        SetState(Code(code.value));
      } else {
        SetState(Code(UNKNOWN));
      }
    }

    method EnsureFallbackTelemetry(probe: Option<int>)
      modifies this`tinfo, this`itChange
      ensures Value() == EnsureFallback(old(Value()), probe)
    {
      if pid.None? {
        return;
      }
      var exit := Null;
      var code := GetExitCode(probe);
      if code.Some? {
        exit := Int(code.value);
      } else if status.Code? {
        exit := Int(status.code);
      }
      tinfo := Some(FallbackTelemetry(pid.value, tinfo, exit));
      itChange := true;
    }

    method RefreshTelemetry(now: real, probe: Option<int>, answer: Reading)
      modifies this`itChange, this`tinfo, this`nextUpdate
      ensures Value() == Refresh(old(Value()), probe, answer).(nextUpdate := now + 1.0)
    {
      nextUpdate := now + 1.0;
      if !answer.Data? {
        if tinfo.None? {
          EnsureFallbackTelemetry(probe);
        }
        return;
      }
      if Some(answer.t) != lastSend {
        tinfo := Some(answer.t);
        itChange := true;
      }
    }

    method OnTick(now: real, probe: Option<int>, reading: Reading)
      modifies this`status, this`itChange, this`tinfo, this`downTime, this`nextUpdate
      ensures Value() == Tick(old(Value()), now, probe, reading)
    {
      itChange := false;
      CheckState(probe);
      if status == Code(ACCESS_DENIED) {
        itChange := false;
        downTime := downTime + 1;
        return;
      }
      if status != Code(RUNNING) && isMonitored {
        downTime := downTime + 1;
        return;
      }
      if now >= nextUpdate {
        RefreshTelemetry(now, probe, if hasHandle then reading else Raised);
      }
    }

    // A new pid keeps the memory of what was last sent.
    method SetPid(newPid: int)
      modifies this`pid, this`itChange, this`hasHandle
      ensures Value() == if old(pid) == Some(newPid) then old(Value())
                         else old(Value()).(pid := Some(newPid), itChange := true, hasHandle := false)
    {
      if pid == Some(newPid) {
        return;
      }
      pid := Some(newPid);
      itChange := true;
      hasHandle := false;
    }

    method ToJsonOnlyChange(sync: bool, probe: Option<int>) returns (report: Option<Record>)
      modifies this`tinfo, this`itChange, this`lastSend, this`sentRunning
      ensures (Value(), report) == Encode(old(Value()), sync, probe)
    {
      if tinfo.None? {
        EnsureFallbackTelemetry(probe);
      }
      if tinfo.None? {
        return None;
      }
      if !sync && !itChange {
        return None;
      }
      var delta := BuildDelta(sync);
      lastSend := tinfo;
      sentRunning := status == Code(RUNNING);
      return Some(delta);
    }

    method BuildDelta(sync: bool) returns (delta: Record)
      requires tinfo.Some?
      ensures delta == Report(Value(), sync)
    {
      delta := map["pid" := if pid.Some? then Int(pid.value) else Null];
      if lastSend.None? || sync {
        delta := delta + info["is_monitored" := Bool(isMonitored)];
      }
      var t := tinfo.value;
      if sync || lastSend.None? {
        delta := delta + TelemetryFields(t);
      } else {
        var changed := CompareFields(t, lastSend.value);
        delta := delta + changed;
      }
      delta := delta + map["is_running" := Bool(status == Code(RUNNING))];
    }
  }

  // Field by field, only what differs.
  method CompareFields(t: Telemetry, l: Telemetry) returns (changed: Record)
    ensures changed == ChangedFields(t, l)
  {
    changed := map[];
    if t.cpuUsage != l.cpuUsage {
      changed := changed["cpu_usage" := Real(t.cpuUsage)];
    }
    NextField(t, l, {}, "cpu_usage");
    assert changed == ChangedAmong(t, l, {} + {"cpu_usage"});
    if t.workingSet != l.workingSet || t.privateBytes != l.privateBytes {
      changed := changed["memory_usage" := MemoryUsage(t)];
    }
    NextField(t, l, {} + {"cpu_usage"}, "memory_usage");
    assert changed == ChangedAmong(t, l, {} + {"cpu_usage"} + {"memory_usage"});
    changed := CompareRest(t, l, changed);
  }

  method CompareRest(t: Telemetry, l: Telemetry, before: Record) returns (changed: Record)
    requires before == ChangedAmong(t, l, {} + {"cpu_usage"} + {"memory_usage"})
    ensures changed == ChangedFields(t, l)
  {
    ghost var done: set<string> := {} + {"cpu_usage"} + {"memory_usage"};
    changed := before;
    if t.handleCount != l.handleCount {
      changed := changed["handle_count" := Int(t.handleCount)];
    }
    NextField(t, l, done, "handle_count");
    done := done + {"handle_count"};
    assert changed == ChangedAmong(t, l, done);
    if t.ioCounters != l.ioCounters {
      changed := changed["io_counters" := t.ioCounters];
    }
    NextField(t, l, done, "io_counters");
    done := done + {"io_counters"};
    assert changed == ChangedAmong(t, l, done);
    if t.exitCode != l.exitCode {
      changed := changed["exit_code" := t.exitCode];
    }
    NextField(t, l, done, "exit_code");
    done := done + {"exit_code"};
    assert changed == ChangedAmong(t, l, done);
    assert done == TELEMETRY_FIELDS;
  }

  ghost function ChangedAmong(t: Telemetry, l: Telemetry, fields: set<string>): Record {
    map f | f in fields && f in TelemetryFields(t) && FieldChanged(t, l, f) :: TelemetryFields(t)[f]
  }

  lemma NextField(t: Telemetry, l: Telemetry, done: set<string>, f: string)
    requires f in TELEMETRY_FIELDS
    ensures ChangedAmong(t, l, done + {f}) ==
      if FieldChanged(t, l, f) then ChangedAmong(t, l, done)[f := TelemetryFields(t)[f]] else ChangedAmong(t, l, done)
  {
  }

  // ---------- What the encoder promises ----------

  // The field test on the underlying numbers is the test on the transmitted values.
  lemma ChangedMeansDifferent(t: Telemetry, l: Telemetry, f: string)
    requires f in TELEMETRY_FIELDS
    ensures FieldChanged(t, l, f) <==> TelemetryFields(t)[f] != TelemetryFields(l)[f]
  {
    assert MemoryUsage(t) == MemoryUsage(l) <==> t.workingSet == l.workingSet && t.privateBytes == l.privateBytes by {
      assert MemoryUsage(t).fields["working_set_size"] == Int(t.workingSet);
      assert MemoryUsage(l).fields["working_set_size"] == Int(l.workingSet);
      assert MemoryUsage(t).fields["private_bytes"] == Int(t.privateBytes);
      assert MemoryUsage(l).fields["private_bytes"] == Int(l.privateBytes);
    }
  }

  // Whatever a receiver held that agreed with the last report agrees, once the new report
  // is laid over it, with the telemetry just sent.
  lemma ReportBringsUpToDate(s: Sender, sync: bool, held: Record)
    requires s.tinfo.Some? && IsInfo(s.info)
    requires s.lastSend.Some? ==> Agrees(held, s.lastSend.value)
    ensures Agrees(held + Report(s, sync), s.tinfo.value)
    ensures SendsEverything(s, sync) ==> IsComplete(Report(s, sync))
  {
    var r, t := Report(s, sync), s.tinfo.value;
    if SendsEverything(s, sync) {
      assert forall f | f in TELEMETRY_FIELDS :: f in r && r[f] == TelemetryFields(t)[f];
    } else {
      var l := s.lastSend.value;
      forall f | f in TELEMETRY_FIELDS && f in held + r ensures (held + r)[f] == TelemetryFields(t)[f] {
        ChangedMeansDifferent(t, l, f);
        assert f in r <==> FieldChanged(t, l, f);
      }
    }
  }

  lemma CompleteWhenFull(s: Sender, sync: bool)
    requires s.tinfo.Some? && IsInfo(s.info) && SendsEverything(s, sync)
    ensures IsComplete(Report(s, sync))
  {
  }

  lemma ReportHeader(s: Sender, sync: bool)
    requires s.tinfo.Some? && IsInfo(s.info)
    ensures
      var r := Report(s, sync);
      && "pid" in r && r["pid"] == PidField(s)["pid"]
      && "is_running" in r && r["is_running"] == Bool(Running(s))
  {
  }

  // Every telemetry field that the record holds has the value last sent.
  ghost predicate Agrees(record: Record, l: Telemetry) {
    forall f | f in TELEMETRY_FIELDS && f in record :: record[f] == TelemetryFields(l)[f]
  }

  ghost predicate IsComplete(record: Record) {
    INFO_FIELDS + TELEMETRY_FIELDS + {"pid", "is_monitored", "is_running"} <= record.Keys
  }

  // A report of figures that were all sent before.
  lemma NothingNewToReport(s: Sender)
    requires s.tinfo.Some? && s.lastSend == s.tinfo
    ensures Report(s, false) == PidField(s) + map["is_running" := Bool(Running(s))]
  {
    assert ChangedFields(s.tinfo.value, s.tinfo.value) == map[];
    assert PidField(s) + map[] == PidField(s);
  }

  lemma EncodeTwice(s: Sender, probe': Option<int>)
    requires s.tinfo.Some?
    ensures
      var s1 := Remembered(s);
      Encode(s1, false, probe')
      == (s1, if s.itChange then Some(PidField(s1) + map["is_running" := Bool(s1.sentRunning)]) else None)
  {
    NothingNewToReport(Remembered(s));
  }

  // Encoding again with nothing in between sends at most the pid and the unchanged status.
  lemma EncodeAgainSendsNothingNew(s: Sender, sync: bool, probe: Option<int>, probe': Option<int>)
    ensures
      var (s1, r1) := Encode(s, sync, probe);
      var (s2, r2) := Encode(s1, false, probe');
      && s2 == s1
      && (r2.Some? ==> s1.lastSend == s1.tinfo && r2.value == PidField(s1) + map["is_running" := Bool(s1.sentRunning)])
      && (r2.Some? ==> r1.Some?)
  {
    var s0 := Prepared(s, probe);
    if s0.tinfo.Some? {
      EncodeTwice(s0, probe');
    }
  }

  // A tick never touches what was last sent, nor the description of the process.
  ghost predicate SameMemory(s: Sender, s': Sender) {
    s'.lastSend == s.lastSend && s'.info == s.info && s'.sentRunning == s.sentRunning && s'.pid == s.pid
  }

  lemma TickKeepsMemory(s: Sender, now: real, probe: Option<int>, reading: Reading)
    ensures SameMemory(s, Tick(s, now, probe, reading))
  {
    var s1 := Checked(s.(itChange := false), probe);
    assert SameMemory(s, s1);
    var answer := if s1.hasHandle then reading else Raised;
    assert SameMemory(s1, Refresh(s1, probe, answer));
  }

  // A telemetry reading different from the last report always raises the change flag, so
  // the next delta carries it.
  lemma FreshReadingIsSent(s: Sender, now: real, probe: Option<int>, t: Telemetry, probe': Option<int>)
    requires s.hasHandle && now >= s.nextUpdate
    requires Checked(s.(itChange := false), probe).status != Code(ACCESS_DENIED)
    requires Running(Checked(s.(itChange := false), probe)) || !s.isMonitored
    requires s.lastSend != Some(t)
    ensures
      var (s', r) := Encode(Tick(s, now, probe, Data(t)), false, probe');
      r.Some? && s'.lastSend == Some(t)
  {
  }

  // A process that once denied access stays that way, whatever the system answers later, and
  // is silent between full reports.
  lemma AccessDeniedIsFinal(s: Sender, now: real, probe: Option<int>, reading: Reading, probe': Option<int>)
    requires s.status == Code(ACCESS_DENIED)
    ensures
      var s' := Tick(s, now, probe, reading);
      && s'.status == Code(ACCESS_DENIED) && s'.downTime == s.downTime + 1 && s'.tinfo == s.tinfo
      && (s.tinfo.Some? ==> Encode(s', false, probe').1 == None)
  {
  }

  // ---------- What one tick makes of the system's answers ----------

  // Unless access was denied before, a process with a handle ends a tick with the status that its
  // exit code stands for, and with "unknown" if the code stands for none or could not be had;
  // one without a handle has failed.
  lemma TickFollowsTheExitCode(s: Sender, now: real, probe: Option<int>, reading: Reading)
    requires s.status != Code(5)
    ensures
      var status := Tick(s, now, probe, reading).status;
      && (!s.hasHandle ==> status == Code(1))
      && (s.hasHandle && probe == Some(259) ==> status == Code(259))
      && (s.hasHandle && probe.Some? && probe.value in {5, 1, 0, 2, 1067, 128, 109, 459998, -1, -9999}
          ==> status == Code(probe.value))
      && (s.hasHandle && (probe.None? || probe.value !in {259, 5, 1, 0, 2, 1067, 128, 109, 459998, -1, -9999})
          ==> status == Code(-1))
  {
    var s1 := Checked(s.(itChange := false), probe);
    assert Refresh(s1, probe, if s1.hasHandle then reading else Raised).status == s1.status;
  }

  // A stand-in keeps every figure of the last reading and takes nothing but the exit code anew;
  // without a last reading all figures are zero.
  lemma FallbackKeepsTheFigures(s: Sender, probe: Option<int>)
    requires s.pid.Some?
    ensures
      var s' := EnsureFallback(s, probe);
      && s'.itChange && s'.tinfo.Some?
      && var t := s'.tinfo.value;
         && t.pid == s.pid.value
         && (s.tinfo.Some? ==>
              && t.cpuUsage == s.tinfo.value.cpuUsage && t.workingSet == s.tinfo.value.workingSet
              && t.privateBytes == s.tinfo.value.privateBytes && t.handleCount == s.tinfo.value.handleCount
              && (Truthy(s.tinfo.value.ioCounters) ==> t.ioCounters == s.tinfo.value.ioCounters))
         && (s.tinfo.None? || !Truthy(s.tinfo.value.ioCounters) ==>
              t.ioCounters == Obj(map["read_bytes" := Int(0), "write_bytes" := Int(0), "other_bytes" := Int(0),
                                      "read_bps" := Real(0.0), "write_bps" := Real(0.0), "other_bps" := Real(0.0)]))
         && (s.tinfo.None? ==> t.cpuUsage == 0.0 && t.workingSet == 0 && t.privateBytes == 0 && t.handleCount == 0)
         && (s.hasHandle && s.status != Code(5) && probe.Some? ==> t.exitCode == Int(probe.value))
         && (s.hasHandle && probe.None? && s.status.Code? ==> t.exitCode == Int(s.status.code))
         && (!s.hasHandle && s.status != Code(5) ==> t.exitCode == Int(1))
         && (s.status == Code(5) ==> t.exitCode == Int(5))
  {
  }

  // A tick that finds a monitored process not running, or access denied, counts it as down and reads
  // nothing; every other tick leaves the count alone.
  lemma DownTimeIsCounted(s: Sender, now: real, probe: Option<int>, reading: Reading)
    ensures
      var s' := Tick(s, now, probe, reading);
      var down := s'.status == Code(5) || (s'.status != Code(259) && s.isMonitored);
      && s'.downTime == (if down then s.downTime + 1 else s.downTime)
      && (down ==> s'.tinfo == s.tinfo && s'.nextUpdate == s.nextUpdate)
  {
    var s1 := Checked(s.(itChange := false), probe);
    var s2 := Refresh(s1, probe, if s1.hasHandle then reading else Raised);
    assert s2.status == s1.status && s2.downTime == s1.downTime;
  }

  // A new status makes the next delta speak, with one exception: that access was denied is told by
  // no delta. A tick that changes neither status nor figures leaves the next delta silent.
  lemma ChangedStatusIsReported(s: Sender, now: real, probe: Option<int>, reading: Reading, probe': Option<int>)
    requires s.tinfo.Some?
    ensures
      var s' := Tick(s, now, probe, reading);
      var r := Encode(s', false, probe').1;
      && (s'.status != s.status && s'.status != Code(5) ==>
            r.Some? && "is_running" in r.value && r.value["is_running"] == Bool(s'.status == Code(259)))
      && (s'.status == Code(5) ==> r.None?)
      && (s'.status == s.status && (reading.Data? && s.hasHandle ==> Some(reading.t) == s.lastSend) ==> r.None?)
  {
    FlagAfterTick(s, now, probe, reading);
    var s' := Tick(s, now, probe, reading);
    assert Encode(s', false, probe').1 == if s'.itChange then Some(Report(s', false)) else None;
  }

  lemma FlagAfterTick(s: Sender, now: real, probe: Option<int>, reading: Reading)
    requires s.tinfo.Some?
    ensures
      var s' := Tick(s, now, probe, reading);
      && s'.tinfo.Some?
      && (s'.status != s.status && s'.status != Code(ACCESS_DENIED) ==> s'.itChange)
      && (s'.status == Code(ACCESS_DENIED) ==> !s'.itChange)
      && (s'.status == s.status && (reading.Data? && s.hasHandle ==> Some(reading.t) == s.lastSend) ==> !s'.itChange)
  {
    var s1 := Checked(s.(itChange := false), probe);
    var s2 := Refresh(s1, probe, if s1.hasHandle then reading else Raised);
    assert s2.status == s1.status && s2.tinfo.Some? && (s1.itChange ==> s2.itChange);
    assert s1.hasHandle == s.hasHandle && s1.lastSend == s.lastSend && s1.tinfo == s.tinfo;
  }

  // Before the next update is due, and when the reading equals the last report, a tick leaves the
  // figures alone; a reading that is taken puts the next update one second off.
  lemma ReadingsAreTakenWhenDueAndNew(s: Sender, now: real, probe: Option<int>, t: Telemetry)
    ensures now < s.nextUpdate || s.lastSend == Some(t) ==> Tick(s, now, probe, Data(t)).tinfo == s.tinfo || !s.hasHandle
    ensures now < s.nextUpdate ==> Tick(s, now, probe, Data(t)).nextUpdate == s.nextUpdate
    ensures s.hasHandle && now >= s.nextUpdate && s.lastSend != Some(t) && s.status != Code(5) && probe == Some(259) ==>
      Tick(s, now, probe, Data(t)).tinfo == Some(t) && Tick(s, now, probe, Data(t)).nextUpdate == now + 1.0
  {
  }
}
