/** Sweeps over the live component list and whole runs of the lifecycle manager. */
module LifecycleRuns {
  import opened Prelude
  import opened LifecycleModel
  import opened LifecycleTheory

  // Every tick reaches a component between a start and the stop that follows it.
  ghost predicate TickSafe(log: seq<Event>) {
    forall k | 0 <= k < |log| && log[k].Ticked? :: Live(log[..k], log[k].c)
  }

  lemma NoTicksAreSafe(log: seq<Event>, part: seq<Event>)
    requires TickSafe(log) && NoTicks(part)
    ensures TickSafe(log + part)
  {
    forall k | 0 <= k < |part| ensures !part[k].Ticked? {
      assert part[k] in part;
    }
    forall k | 0 <= k < |log| ensures (log + part)[..k] == log[..k] {}
  }

  lemma AppendIsSafe(log: seq<Event>, e: Event)
    requires TickSafe(log) && (e.Ticked? ==> Live(log, e.c))
    ensures TickSafe(log + [e])
  {
    forall k | 0 <= k < |log + [e]| ensures (log + [e])[..k] == log[..k] {}
  }

  lemma CallIsNoStop(st: State, e: Event)
    requires !e.Stopped? && AllLive(st.log, st.components)
    ensures AllLive(Log(st, e).log, st.components)
  {
    forall c | c in st.components ensures Live(st.log + [e], c) {
      LiveAppend(st.log, e, c);
    }
  }

  // Calls that components make keep all components started, if they were.
  lemma EffectKeepsAllLive(st: State, st': State, part: seq<Event>, added: seq<Id>)
    requires Effect(st, st', part, added) && st.running && AllLive(st.log, st.components)
    ensures AllLive(st'.log, st'.components)
  {
    StillLive(st.log, st.components, part, st.components);
  }

  ghost predicate Sound(st: State) {
    NoDuplicates(st.components) && TickSafe(st.log) && (st.running ==> AllLive(st.log, st.components))
  }

  lemma EffectKeepsSound(st: State, st': State, part: seq<Event>, added: seq<Id>)
    requires Sound(st) && Effect(st, st', part, added)
    ensures Sound(st')
  {
    NoTicksAreSafe(st.log, part);
    if st.running {
      EffectKeepsAllLive(st, st', part, added);
    }
  }

  lemma {:induction false} TickSweepKeepsSound(st: State, i: nat, scripts: seq<Script>)
    requires Sound(st) && st.running
    ensures Sound(Sweep(st, i, Ticking, scripts)) && Sweep(st, i, Ticking, scripts).running
    decreases if i < |scripts| then |scripts| - i else 0, |st.components| - i
  {
    if i < |st.components| {
      var e := Ticked(st.components[i]);
      AppendIsSafe(st.log, e);
      CallIsNoStop(st, e);
      var part, added := ExecEffect(Log(st, e), ScriptAt(scripts, i));
      var next := Callback(st, i, Ticking, ScriptAt(scripts, i));
      EffectKeepsSound(Log(st, e), next, part, added);
      TickSweepKeepsSound(next, i + 1, scripts);
    }
  }

  // Start and stop sweeps tick nothing, and no sweep registers a component twice.
  lemma {:induction false} SweepEffects(st: State, i: nat, kind: Kind, scripts: seq<Script>) returns (part: seq<Event>)
    requires NoDuplicates(st.components)
    ensures Sweep(st, i, kind, scripts).log == st.log + part
    ensures Sweep(st, i, kind, scripts).running == st.running
    ensures NoDuplicates(Sweep(st, i, kind, scripts).components)
    ensures kind != Ticking ==> NoTicks(part)
    decreases if i < |scripts| then |scripts| - i else 0, |st.components| - i
  {
    if i >= |st.components| {
      part := [];
      assert st.log + [] == st.log;
    } else {
      var e := Call(kind, st.components[i]);
      var p, _ := ExecEffect(Log(st, e), ScriptAt(scripts, i));
      var next := Callback(st, i, kind, ScriptAt(scripts, i));
      var q := SweepEffects(next, i + 1, kind, scripts);
      part := [e] + p + q;
      assert st.log + part == st.log + [e] + p + q;
    }
  }

  // ---------- Exactly when a start sweep leaves a component out ----------

  ghost predicate Among(xs: seq<Id>, lo: nat, hi: nat, x: Id) {
    exists j :: lo <= j < hi && j < |xs| && xs[j] == x
  }

  // A callback at position `i` took components off the list in front of `x`, which had not
  // been reached yet, so that the loop passes `x` by.
  ghost predicate Overtaken(st: State, st': State, i: nat, x: Id) {
    && Among(st.components, i + 1, |st.components|, x) && !Live(st.log, x)
    && st.log <= st'.log && Stopped(x) !in st'.log[|st.log|..]
    && Among(st'.components, 0, i + 1, x)
  }

  // The callback at `i` makes the loop pass `x` by, and nothing takes it off the list later.
  ghost predicate PassedFor(st: State, next: State, end: State, i: nat, x: Id) {
    Overtaken(st, next, i, x) && next.log <= end.log && Stopped(x) !in end.log[|next.log|..]
  }

  // Some callback of the sweep makes the loop pass `x` by for good.
  ghost predicate Skipped(st: State, i: nat, scripts: seq<Script>, x: Id)
    decreases if i < |scripts| then |scripts| - i else 0, |st.components| - i
  {
    i < |st.components| &&
    var next := Callback(st, i, Starting, ScriptAt(scripts, i));
    || PassedFor(st, next, Sweep(next, i + 1, Starting, scripts), i, x)
    || Skipped(next, i + 1, scripts, x)
  }

  lemma KeptInFront(xs: seq<Id>, part: seq<Event>, j: nat)
    requires j < |xs| && Stopped(xs[j]) !in part
    ensures Among(Kept(xs, part), 0, j + 1, xs[j])
  {
    KeptAppend(xs[..j + 1], xs[j + 1..], part);
    assert xs == xs[..j + 1] + xs[j + 1..];
    KeptMembers(xs[..j + 1], part);
    KeptIsShorter(xs[..j + 1], part);
    assert xs[..j + 1][j] == xs[j];
    var k :| 0 <= k < |Kept(xs[..j + 1], part)| && Kept(xs[..j + 1], part)[k] == xs[j];
    assert Kept(xs, part)[k] == xs[j];
  }

  lemma {:induction false} KeptIsShorter(xs: seq<Id>, part: seq<Event>)
    ensures |Kept(xs, part)| <= |xs|
  {
    if xs != [] {
      KeptIsShorter(xs[..|xs| - 1], part);
    }
  }

  // A component in its place that is not called, and is not the one being started.
  lemma UncalledIsUnchanged(st: State, c: Id, next: State, part: seq<Event>, added: seq<Id>, x: Id)
    requires Effect(Log(st, Started(c)), next, part, added)
    requires x in st.components && Stopped(x) !in part
    ensures Live(next.log, x) <==> x == c || Live(st.log, x)
  {
    LiveUnchanged(st.log + [Started(c)], part, x);
    LiveAppend(st.log, Started(c), x);
  }

  // One start callback: who stands in front of the loop afterwards without having been started.
  lemma OneCallback(st: State, i: nat, next: State, part: seq<Event>, added: seq<Id>, x: Id)
    requires i < |st.components| && st.running
    requires Effect(Log(st, Started(st.components[i])), next, part, added)
    ensures Among(next.components, 0, i + 1, x) && !Live(next.log, x) <==>
      || (Among(st.components, 0, i, x) && !Live(st.log, x) && Stopped(x) !in part)
      || Overtaken(st, next, i, x)
  {
    var c := st.components[i];
    assert next.log[|st.log|..] == [Started(c)] + part;
    KeptMembers(st.components, part);
    if Among(next.components, 0, i + 1, x) && !Live(next.log, x) {
      assert x !in added;
      UncalledIsUnchanged(st, c, next, part, added, x);
      var j :| 0 <= j < |st.components| && st.components[j] == x;
      assert Among(st.components, 0, i, x) || Among(st.components, i + 1, |st.components|, x);
    }
    if Among(st.components, 0, i, x) && !Live(st.log, x) && Stopped(x) !in part {
      var j :| 0 <= j < i && st.components[j] == x;
      UncalledIsUnchanged(st, c, next, part, added, x);
      KeptInFront(st.components, part, j);
      FrontIsFront(Kept(st.components, part), added, j + 1, i + 1, x);
    }
    if Overtaken(st, next, i, x) {
      assert x != c;
      UncalledIsUnchanged(st, c, next, part, added, x);
    }
  }

  lemma FrontIsFront(xs: seq<Id>, ys: seq<Id>, n: nat, m: nat, x: Id)
    requires Among(xs, 0, n, x) && n <= m
    ensures Among(xs + ys, 0, m, x)
  {
    var j :| 0 <= j < n && j < |xs| && xs[j] == x;
    assert (xs + ys)[j] == x;
  }

  lemma StopsAdd(log: seq<Event>, part: seq<Event>, end: seq<Event>, x: Id)
    requires log + part <= end
    ensures Stopped(x) in end[|log|..] <==> Stopped(x) in part || Stopped(x) in end[|log + part|..]
  {
    assert end[|log|..] == part + end[|log + part|..];
  }

  // Registered in front of the loop, not started, and never taken off until the end.
  ghost predicate Forgotten(st: State, end: State, i: nat, x: Id) {
    && Among(st.components, 0, i, x) && !Live(st.log, x)
    && st.log <= end.log && Stopped(x) !in end.log[|st.log|..]
  }

  lemma OneCallbackOfMany(st: State, i: nat, next: State, part: seq<Event>, added: seq<Id>, end: State, x: Id)
    requires i < |st.components| && st.running && next.log <= end.log
    requires Effect(Log(st, Started(st.components[i])), next, part, added)
    ensures st.log <= end.log
    ensures Forgotten(next, end, i + 1, x) <==> Forgotten(st, end, i, x) || PassedFor(st, next, end, i, x)
  {
    var called := [Started(st.components[i])] + part;
    assert next.log == st.log + called;
    OneCallback(st, i, next, part, added, x);
    StopsAdd(st.log, called, end.log, x);
    assert Stopped(x) in called <==> Stopped(x) in part;
  }

  // Exactly which components are registered but not started when a start sweep is over: those
  // already in front of the loop and never taken off, and those that the loop passes by.
  lemma {:induction false} LeftOut(st: State, i: nat, scripts: seq<Script>, x: Id)
    requires NoDuplicates(st.components) && st.running
    ensures
      var end := Sweep(st, i, Starting, scripts);
      && st.log <= end.log
      && (x in end.components && !Live(end.log, x) <==> Forgotten(st, end, i, x) || Skipped(st, i, scripts, x))
    decreases if i < |scripts| then |scripts| - i else 0, |st.components| - i
  {
    if i < |st.components| {
      var next := Callback(st, i, Starting, ScriptAt(scripts, i));
      var part, added := ExecEffect(Log(st, Started(st.components[i])), ScriptAt(scripts, i));
      LeftOut(next, i + 1, scripts, x);
      OneCallbackOfMany(st, i, next, part, added, Sweep(next, i + 1, Starting, scripts), x);
    }
  }

  ghost predicate PassesNobodyBy(begin: State, scripts: seq<Script>) {
    forall x :: !Skipped(begin, 0, scripts, x)
  }

  // A start sweep leaves no registered component unstarted exactly when no callback makes the
  // loop pass one by.
  lemma StartIsComplete(begin: State, scripts: seq<Script>)
    requires NoDuplicates(begin.components) && begin.running
    ensures
      var end := Sweep(begin, 0, Starting, scripts);
      AllLive(end.log, end.components) <==> PassesNobodyBy(begin, scripts)
  {
    var end := Sweep(begin, 0, Starting, scripts);
    if PassesNobodyBy(begin, scripts) {
      forall x | x in end.components ensures Live(end.log, x) {
        LeftOut(begin, 0, scripts, x);
        assert !Skipped(begin, 0, scripts, x);
      }
    }
    if AllLive(end.log, end.components) {
      forall x ensures !Skipped(begin, 0, scripts, x) {
        LeftOut(begin, 0, scripts, x);
      }
    }
  }

  // The script takes no component off the list, at any depth.
  predicate OnlyRegisters(script: Script) {
    match script
    case Return => true
    case Register(_, onStart, rest) => OnlyRegisters(onStart) && OnlyRegisters(rest)
    case Unregister(_, _, _, _) => false
  }

  lemma {:induction false} RegisteringOnlyAppends(st: State, script: Script)
    requires OnlyRegisters(script)
    ensures st.components <= Exec(st, script).components
    decreases script
  {
    match script
    case Return =>
    case Register(c, onStart, rest) =>
      if c !in st.components && st.running {
        RegisteringOnlyAppends(Log(st.(components := st.components + [c]), Started(c)), onStart);
      }
      RegisteringOnlyAppends(RegisterIn(st, c, onStart), rest);
  }

  // What can be checked beforehand: if no start callback unregisters anything, at any depth,
  // the sweep passes nobody by.
  lemma {:induction false} RegisteringPassesNobodyBy(st: State, i: nat, scripts: seq<Script>, x: Id)
    requires NoDuplicates(st.components) && forall k | 0 <= k < |scripts| :: OnlyRegisters(scripts[k])
    ensures !Skipped(st, i, scripts, x)
    decreases if i < |scripts| then |scripts| - i else 0, |st.components| - i
  {
    if i < |st.components| {
      var script := ScriptAt(scripts, i);
      var next := Callback(st, i, Starting, script);
      var _, _ := ExecEffect(Log(st, Started(st.components[i])), script);
      RegisteringOnlyAppends(Log(st, Started(st.components[i])), script);
      NotOvertaken(st, next, i, x);
      RegisteringPassesNobodyBy(next, i + 1, scripts, x);
    }
  }

  lemma NotOvertaken(st: State, next: State, i: nat, x: Id)
    requires NoDuplicates(st.components) && st.components <= next.components && i < |st.components|
    ensures !Overtaken(st, next, i, x)
  {
  }

  // ---------- Exactly when a stop sweep leaves a component out ----------

  // Some stop callback makes the loop pass `x` by, and nothing stops it, before or after.
  ghost predicate NeverStopped(st: State, i: nat, scripts: seq<Script>, x: Id)
    decreases if i < |scripts| then |scripts| - i else 0, |st.components| - i
  {
    i < |st.components| &&
    var next := Callback(st, i, Stopping, ScriptAt(scripts, i));
    && st.log <= next.log && Stopped(x) !in next.log[|st.log|..]
    && (SlidesPast(st, next, Sweep(next, i + 1, Stopping, scripts), i, x) || NeverStopped(next, i + 1, scripts, x))
  }

  // From behind the loop's position to a place in front of it, and not stopped later.
  ghost predicate SlidesPast(st: State, next: State, end: State, i: nat, x: Id) {
    && Among(st.components, i + 1, |st.components|, x) && Among(next.components, 0, i + 1, x)
    && next.log <= end.log && Stopped(x) !in end.log[|next.log|..]
  }

  // One stop callback: a component that it does not stop stays where it was or slides forward.
  lemma OneStop(st: State, i: nat, next: State, part: seq<Event>, added: seq<Id>, x: Id)
    requires i < |st.components| && x in st.components
    requires Effect(Log(st, Stopped(st.components[i])), next, part, added)
    requires Stopped(x) !in next.log[|st.log|..]
    ensures x in next.components
    ensures Among(next.components, 0, i + 1, x) <==>
      Among(st.components, 0, i, x) || (Among(st.components, i + 1, |st.components|, x) && Among(next.components, 0, i + 1, x))
  {
    var c := st.components[i];
    assert next.log[|st.log|..] == [Stopped(c)] + part;
    assert x != c && Stopped(x) !in part;
    KeptMembers(st.components, part);
    var j :| 0 <= j < |st.components| && st.components[j] == x;
    if j < i {
      KeptInFront(st.components, part, j);
      FrontIsFront(Kept(st.components, part), added, j + 1, i + 1, x);
    } else {
      assert Among(st.components, i + 1, |st.components|, x);
    }
  }

  // Exactly which components of the list a stop sweep never stops.
  lemma {:induction false} LeftRunning(st: State, i: nat, scripts: seq<Script>, x: Id)
    requires NoDuplicates(st.components) && x in st.components
    ensures
      var end := Sweep(st, i, Stopping, scripts);
      && st.log <= end.log
      && (Stopped(x) !in end.log[|st.log|..] <==>
            || (Among(st.components, 0, i, x) && Stopped(x) !in end.log[|st.log|..])
            || NeverStopped(st, i, scripts, x))
    decreases if i < |scripts| then |scripts| - i else 0, |st.components| - i
  {
    var end := Sweep(st, i, Stopping, scripts);
    var all := SweepEffects(st, i, Stopping, scripts);
    if i < |st.components| {
      var next := Callback(st, i, Stopping, ScriptAt(scripts, i));
      var part, added := ExecEffect(Log(st, Stopped(st.components[i])), ScriptAt(scripts, i));
      var called := [Stopped(st.components[i])] + part;
      var _ := SweepEffects(next, i + 1, Stopping, scripts);
      assert next.log == st.log + called && next.log <= end.log;
      StopsAdd(st.log, called, end.log, x);
      assert next.log[|st.log|..] == called;
      if Stopped(x) !in called {
        OneStop(st, i, next, part, added, x);
        LeftRunning(next, i + 1, scripts, x);
      }
    } else {
      assert Among(st.components, 0, i, x);
    }
  }

  // A stop sweep stops every component of the list exactly when it passes none of them by.
  lemma StopIsComplete(st: State, scripts: seq<Script>)
    requires NoDuplicates(st.components)
    ensures
      var end := StopSweepIn(st, scripts);
      && st.log <= end.log
      && ((forall x | x in st.components :: Stopped(x) in end.log[|st.log|..])
          <==> forall x | x in st.components :: !NeverStopped(st, 0, scripts, x))
  {
    var _ := SweepEffects(st, 0, Stopping, scripts);
    forall x | x in st.components
      ensures Stopped(x) in StopSweepIn(st, scripts).log[|st.log|..] <==> !NeverStopped(st, 0, scripts, x)
    {
      LeftRunning(st, 0, scripts, x);
    }
  }

  // It does happen: the first of two components unregisters itself when it is stopped.
  lemma StopSkippingHappens()
    ensures
      var st := State([1, 2], false, []);
      StopSweepIn(st, [Unregister(1, Return, false, Return)]) == State([2], false, [Stopped(1), Stopped(1)])
  {
    var st, script := State([1, 2], false, []), Unregister(1, Return, false, Return);
    assert Remove([1, 2], 1) == [2];
    var logged := State([1, 2], false, [Stopped(1)]);
    assert Log(st, Stopped(1)) == logged;
    assert Exec(logged, script) == State([2], false, [Stopped(1), Stopped(1)]);
    assert ScriptAt([script], 0) == script;
    assert Callback(st, 0, Stopping, script) == State([2], false, [Stopped(1), Stopped(1)]);
  }

  // ---------- Ticking ----------

  // No callback of the sweep changes which components are registered.
  ghost predicate Steady(st: State, i: nat, kind: Kind, scripts: seq<Script>)
    decreases |st.components| - i
  {
    i >= |st.components| ||
    var next := Callback(st, i, kind, ScriptAt(scripts, i));
    next.components == st.components && Steady(next, i + 1, kind, scripts)
  }

  function Ticks(part: seq<Event>): seq<Id> {
    if part == [] then []
    else Ticks(part[..|part| - 1]) + (if part[|part| - 1].Ticked? then [part[|part| - 1].c] else [])
  }

  lemma {:induction false} TicksAppend(p: seq<Event>, q: seq<Event>)
    ensures Ticks(p + q) == Ticks(p) + Ticks(q)
  {
    if q == [] {
      assert p + q == p;
    } else {
      var n := |q| - 1;
      TicksAppend(p, q[..n]);
      assert (p + q)[..|p| + n] == p + q[..n];
    }
  }

  lemma {:induction false} NoTicksMeansNone(part: seq<Event>)
    requires NoTicks(part)
    ensures Ticks(part) == []
  {
    if part != [] {
      var n := |part| - 1;
      forall c ensures Ticked(c) !in part[..n] {
        assert Ticked(c) !in part;
      }
      NoTicksMeansNone(part[..n]);
      assert part[n] in part;
    }
  }

  // A sweep that changes no registration ticks every component exactly once, in order.
  lemma {:induction false} SteadySweepTicksAll(st: State, i: nat, scripts: seq<Script>) returns (part: seq<Event>)
    requires NoDuplicates(st.components) && i <= |st.components| && Steady(st, i, Ticking, scripts)
    ensures Sweep(st, i, Ticking, scripts).log == st.log + part
    ensures Ticks(part) == st.components[i..]
    decreases |st.components| - i
  {
    if i == |st.components| {
      part := [];
      assert st.log + [] == st.log;
    } else {
      var e := Ticked(st.components[i]);
      var p, _ := ExecEffect(Log(st, e), ScriptAt(scripts, i));
      var next := Callback(st, i, Ticking, ScriptAt(scripts, i));
      var q := SteadySweepTicksAll(next, i + 1, scripts);
      part := [e] + p + q;
      assert st.log + part == st.log + [e] + p + q;
      TicksAppend([e] + p, q);
      TicksAppend([e], p);
      NoTicksMeansNone(p);
      assert Ticks([e]) == [st.components[i]];
    }
  }

  // ---------- Whole runs ----------

  datatype Op =
    | RegisterOp(c: Id, onStart: Script)
    | UnregisterOp(c: Id, onStop: Script)
    | StartOp(scripts: seq<Script>)
    | TickOp(scripts: seq<Script>)
    | StopRequest
    | StopSweepOp(scripts: seq<Script>)

  // `stopping` holds while a stop waits for the tick loop to end before it sweeps.
  datatype Manager = Manager(st: State, stopping: bool)

  const NEW_MANAGER := Manager(State([], false, []), false)

  // Start and stop do not overlap; everything else is possible between two sweeps.
  predicate Enabled(m: Manager, op: Op) {
    match op
    case StartOp(_) => !m.stopping
    case StopRequest => !m.stopping
    case StopSweepOp(_) => m.stopping
    case _ => true
  }

  function Do(m: Manager, op: Op): Manager
    requires Enabled(m, op)
  {
    match op
    case RegisterOp(c, onStart) => m.(st := RegisterIn(m.st, c, onStart))
    case UnregisterOp(c, onStop) => m.(st := UnregisterIn(m.st, c, onStop).0)
    case StartOp(scripts) => m.(st := StartIn(m.st, scripts))
    case TickOp(scripts) => m.(st := TickIn(m.st, scripts))
    case StopRequest => if m.st.running then Manager(m.st.(running := false), true) else m
    case StopSweepOp(scripts) => Manager(StopSweepIn(m.st, scripts), false)
  }

  // A start sweep that passes nobody by.
  ghost predicate Complete(m: Manager, op: Op) {
    op.StartOp? && !m.st.running ==> PassesNobodyBy(m.st.(running := true), op.scripts)
  }

  // The state after a run; a call that may not happen now does not happen.
  function After(ops: seq<Op>): Manager {
    if ops == [] then NEW_MANAGER
    else
      var m, op := After(ops[..|ops| - 1]), ops[|ops| - 1];
      if Enabled(m, op) then Do(m, op) else m
  }

  // Every start sweep of the run passes nobody by.
  ghost predicate AllComplete(ops: seq<Op>) {
    ops != [] ==> AllComplete(ops[..|ops| - 1]) && Complete(After(ops[..|ops| - 1]), ops[|ops| - 1])
  }

  // A caller can see beforehand that a start is complete when its callbacks unregister nothing.
  lemma StartsWithoutRemovalsAreComplete(m: Manager, op: Op)
    requires NoDuplicates(m.st.components) && op.StartOp?
    requires forall k | 0 <= k < |op.scripts| :: OnlyRegisters(op.scripts[k])
    ensures Complete(m, op)
  {
    forall x ensures !Skipped(m.st.(running := true), 0, op.scripts, x) {
      RegisteringPassesNobodyBy(m.st.(running := true), 0, op.scripts, x);
    }
  }

  lemma StepKeepsDuplicateFree(m: Manager, op: Op)
    requires NoDuplicates(m.st.components) && Enabled(m, op)
    ensures NoDuplicates(Do(m, op).st.components)
  {
    match op
    case RegisterOp(c, onStart) => var _, _ := RegisterEffect(m.st, c, onStart);
    case UnregisterOp(c, onStop) => var _, _ := UnregisterEffect(m.st, c, onStop);
    case StartOp(scripts) => var _ := SweepEffects(m.st.(running := true), 0, Starting, scripts);
    case TickOp(scripts) => var _ := SweepEffects(m.st, 0, Ticking, scripts);
    case StopRequest =>
    case StopSweepOp(scripts) => var _ := SweepEffects(m.st, 0, Stopping, scripts);
  }

  // Whatever the callbacks do, no component is ever registered twice.
  lemma {:induction false} NeverTwice(ops: seq<Op>)
    ensures NoDuplicates(After(ops).st.components)
  {
    if ops != [] {
      var m, op := After(ops[..|ops| - 1]), ops[|ops| - 1];
      NeverTwice(ops[..|ops| - 1]);
      if Enabled(m, op) {
        StepKeepsDuplicateFree(m, op);
      }
    }
  }

  // While a stop is under way the manager does not run.
  ghost predicate RunInv(m: Manager) {
    Sound(m.st) && (m.stopping ==> !m.st.running)
  }

  lemma StepKeepsInv(m: Manager, op: Op)
    requires RunInv(m) && Enabled(m, op) && Complete(m, op)
    ensures RunInv(Do(m, op))
  {
    match op
    case RegisterOp(c, onStart) =>
      var part, added := RegisterEffect(m.st, c, onStart);
      EffectKeepsSound(m.st, Do(m, op).st, part, added);
    case UnregisterOp(c, onStop) =>
      var part, added := UnregisterEffect(m.st, c, onStop);
      EffectKeepsSound(m.st, Do(m, op).st, part, added);
    case StartOp(scripts) =>
      if !m.st.running {
        var part := SweepEffects(m.st.(running := true), 0, Starting, scripts);
        NoTicksAreSafe(m.st.log, part);
        StartIsComplete(m.st.(running := true), scripts);
      }
    case TickOp(scripts) =>
      if m.st.running {
        TickSweepKeepsSound(m.st, 0, scripts);
      }
    case StopRequest =>
    case StopSweepOp(scripts) =>
      var part := SweepEffects(m.st, 0, Stopping, scripts);
      NoTicksAreSafe(m.st.log, part);
  }

  // Over every run whose start sweeps pass nobody by, every tick reaches a component after its
  // start and before its next stop, even when callbacks register and unregister in mid-sweep.
  lemma {:induction false} TicksAreSafe(ops: seq<Op>)
    requires AllComplete(ops)
    ensures RunInv(After(ops))
  {
    if ops != [] {
      var m, op := After(ops[..|ops| - 1]), ops[|ops| - 1];
      TicksAreSafe(ops[..|ops| - 1]);
      if Enabled(m, op) {
        StepKeepsInv(m, op);
      }
    }
  }

  // The condition is exact: after a start sweep that passes somebody by, the very next sweep of
  // ticks, with callbacks that do nothing, ticks a component that was not started.
  lemma SkippingIsUnsafe(m: Manager, op: Op)
    requires RunInv(m) && Enabled(m, op) && op.StartOp? && !m.st.running
    ensures TickSafe(Do(Do(m, op), TickOp([])).st.log) <==> Complete(m, op)
  {
    var started := Do(m, op);
    StartIsComplete(m.st.(running := true), op.scripts);
    if Complete(m, op) {
      StepKeepsInv(m, op);
      StepKeepsInv(started, TickOp([]));
    } else {
      var begin := SweepEffects(m.st.(running := true), 0, Starting, op.scripts);
      assert !AllLive(started.st.log, started.st.components);
      var x :| x in started.st.components && !Live(started.st.log, x);
      var j :| 0 <= j < |started.st.components| && started.st.components[j] == x;
      QuietTickReaches(started.st, 0, j);
    }
  }

  // A sweep with silent callbacks ticks component number `j` in the state it was found in.
  lemma {:induction false} QuietTickReaches(st: State, i: nat, j: nat)
    requires NoDuplicates(st.components) && i <= j < |st.components| && !Live(st.log, st.components[j])
    ensures !TickSafe(Sweep(st, i, Ticking, []).log)
    decreases j - i
  {
    var e := Ticked(st.components[i]);
    var next := Log(st, e);
    assert Callback(st, i, Ticking, Return) == next;
    if i == j {
      var part := SweepEffects(next, i + 1, Ticking, []);
      var log := Sweep(st, i, Ticking, []).log;
      assert log == st.log + [e] + part;
      assert log[|st.log|] == e && log[..|st.log|] == st.log;
    } else {
      LiveAppend(st.log, e, st.components[j]);
      QuietTickReaches(next, i + 1, j);
    }
  }

  // It does happen: the first of two components unregisters itself when it is started, the
  // second slides into its place, and the loop goes on behind it.
  lemma SkippingHappens()
    ensures
      var m := Manager(State([1, 2], false, []), false);
      var op := StartOp([Unregister(1, Return, false, Return)]);
      && RunInv(m) && Enabled(m, op) && !Complete(m, op)
      && Do(m, op).st == State([2], true, [Started(1), Stopped(1)])
      && Do(Do(m, op), TickOp([])).st.log == [Started(1), Stopped(1), Ticked(2)]
  {
    var m := Manager(State([1, 2], false, []), false);
    var script := Unregister(1, Return, false, Return);
    var op := StartOp([script]);
    var begin := State([1, 2], true, []);
    assert Remove([1, 2], 1) == [2];
    var logged := State([1, 2], true, [Started(1)]);
    assert Log(begin, Started(1)) == logged;
    assert Exec(logged, script) == State([2], true, [Started(1), Stopped(1)]);
    assert Callback(begin, 0, Starting, script) == State([2], true, [Started(1), Stopped(1)]);
    assert ScriptAt([script], 0) == script && begin == m.st.(running := true);
    assert Sweep(begin, 0, Starting, [script]) == State([2], true, [Started(1), Stopped(1)]);
    assert Callback(Do(m, op).st, 0, Ticking, Return) == State([2], true, [Started(1), Stopped(1), Ticked(2)]);
    SkippingIsUnsafe(m, op);
    var log := [Started(1), Stopped(1), Ticked(2)];
    assert log[2].Ticked? && log[..2] == [Started(1), Stopped(1)];
    assert [Started(1), Stopped(1)][..1] == [Started(1)];
    assert !Live(log[..2], 2);
  }
}
