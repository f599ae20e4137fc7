/**
 Registration itself: who joins the manager's list, who stays on it, and who is called when the
 manager starts.
 */
module LifecycleRegistration {
  import opened Prelude
  import opened LifecycleModel
  import opened LifecycleTheory
  import opened LifecycleRuns

  // ---------- One registration, one removal ----------

  // An idle manager remembers a new component and calls nobody; a running one starts it at once,
  // and it is on the list afterwards unless something its start set off has stopped it.
  lemma RegistrationIsRemembered(st: State, c: Id, onStart: Script) returns (part: seq<Event>)
    requires NoDuplicates(st.components) && c !in st.components
    ensures
      var st' := RegisterIn(st, c, onStart);
      && st'.running == st.running && st'.log == st.log + part
      && (!st.running ==> st'.components == st.components + [c] && part == [])
      && (st.running ==> part != [] && part[0] == Started(c) && (Stopped(c) !in part ==> c in st'.components))
  {
    if st.running {
      var joined := st.(components := st.components + [c], log := st.log + [Started(c)]);
      var rest, added := ExecEffect(joined, onStart);
      part := [Started(c)] + rest;
      KeptMembers(joined.components, rest);
    } else {
      part := [];
      assert st.log + [] == st.log;
    }
  }

  lemma SecondRegistrationIsIgnored(st: State, c: Id, onStart: Script)
    requires c in st.components
    ensures RegisterIn(st, c, onStart) == st
  {
  }

  // A removal stops the component first, and then it is gone; everybody else on the list stays
  // unless stopped meanwhile.
  lemma RemovalStopsFirst(st: State, c: Id, onStop: Script) returns (part: seq<Event>)
    requires NoDuplicates(st.components)
    ensures
      var st' := UnregisterIn(st, c, onStop).0;
      && st'.log == st.log + part && c !in st'.components
      && (c in st.components ==> part != [] && part[0] == Stopped(c))
      && (c !in st.components ==> part == [])
      && forall x | x in st.components && Stopped(x) !in part :: x in st'.components
  {
    if c in st.components {
      var rest, _ := ExecEffect(Log(st, Stopped(c)), onStop);
      var all, added := UnregisterEffect(st, c, onStop);
      part := [Stopped(c)] + rest;
      assert st.log + [Stopped(c)] + rest == st.log + part;
      assert all == part by {
        SameTail(st.log, all, part);
      }
      KeptMembers(st.components, part);
    } else {
      part := [];
      assert st.log + [] == st.log;
    }
  }

  lemma SameTail(log: seq<Event>, p: seq<Event>, q: seq<Event>)
    requires log + p == log + q
    ensures p == q
  {
    assert (log + p)[|log|..] == p && (log + q)[|log|..] == q;
  }

  // A stop callback that removes its own component makes the removal around it fail, and that ends
  // the calling callback unless it is guarded: only then the next registration is reached.
  lemma FailedRemovalEndsTheCallback(guarded: bool)
    ensures
      var script := Unregister(1, Unregister(1, Return, false, Return), guarded, Register(2, Return, Return));
      Exec(State([1], true, []), script) ==
        if guarded then State([2], true, [Stopped(1), Stopped(1), Started(2)]) else State([], true, [Stopped(1), Stopped(1)])
  {
    var onStop := Unregister(1, Return, false, Return);
    var st, gone := State([1], true, []), State([], true, [Stopped(1), Stopped(1)]);
    assert Log(Log(st, Stopped(1)), Stopped(1)) == State([1], true, [Stopped(1), Stopped(1)]);
    assert Exec(Log(st, Stopped(1)), onStop) == gone;
    assert UnregisterIn(st, 1, onStop) == (gone, false);
    assert RegisterIn(gone, 2, Return) == State([2], true, [Stopped(1), Stopped(1), Started(2)]);
  }

  // ---------- Over whole runs ----------

  // From `st` to `st'` the log grew, and who is not stopped in the new part stays on the list.
  ghost predicate Keeps(st: State, st': State, c: Id) {
    && st.log <= st'.log
    && (c in st.components && Stopped(c) !in st'.log[|st.log|..] ==> c in st'.components)
  }

  lemma KeepsTwice(a: State, b: State, c: State, x: Id)
    requires Keeps(a, b, x) && Keeps(b, c, x)
    ensures Keeps(a, c, x)
  {
    assert c.log[|a.log|..] == b.log[|a.log|..] + c.log[|b.log|..];
  }

  lemma EffectKeeps(st: State, st': State, part: seq<Event>, added: seq<Id>, c: Id)
    requires Effect(st, st', part, added)
    ensures Keeps(st, st', c)
  {
    assert st'.log[|st.log|..] == part;
    KeptMembers(st.components, part);
  }

  lemma {:induction false} SweepKeeps(st: State, i: nat, kind: Kind, scripts: seq<Script>, c: Id)
    requires NoDuplicates(st.components)
    ensures Keeps(st, Sweep(st, i, kind, scripts), c)
    decreases if i < |scripts| then |scripts| - i else 0, |st.components| - i
  {
    if i < |st.components| {
      var called := Log(st, Call(kind, st.components[i]));
      var next := Callback(st, i, kind, ScriptAt(scripts, i));
      var part, added := ExecEffect(called, ScriptAt(scripts, i));
      EffectKeeps(called, next, part, added, c);
      KeepsTwice(st, called, next, c);
      SweepKeeps(next, i + 1, kind, scripts, c);
      KeepsTwice(st, next, Sweep(st, i, kind, scripts), c);
    }
  }

  lemma StepKeeps(m: Manager, op: Op, c: Id)
    requires NoDuplicates(m.st.components) && Enabled(m, op)
    ensures Keeps(m.st, Do(m, op).st, c)
  {
    match op
    case RegisterOp(x, onStart) =>
      var part, added := RegisterEffect(m.st, x, onStart);
      EffectKeeps(m.st, Do(m, op).st, part, added, c);
    case UnregisterOp(x, onStop) =>
      var part, added := UnregisterEffect(m.st, x, onStop);
      EffectKeeps(m.st, Do(m, op).st, part, added, c);
    case StartOp(scripts) => SweepKeeps(m.st.(running := true), 0, Starting, scripts, c);
    case TickOp(scripts) => SweepKeeps(m.st, 0, Ticking, scripts, c);
    case StopRequest =>
    case StopSweepOp(scripts) => SweepKeeps(m.st, 0, Stopping, scripts, c);
  }

  // Over every run, a registered component stays registered until it is stopped.
  lemma {:induction false} StaysUntilStopped(ops: seq<Op>, more: seq<Op>, c: Id)
    requires c in After(ops).st.components
    ensures
      var before, after := After(ops).st, After(ops + more).st;
      && before.log <= after.log
      && (c !in after.components ==> Stopped(c) in after.log[|before.log|..])
    decreases |more|
  {
    if more == [] {
      assert ops + more == ops;
    } else {
      var front, op := more[..|more| - 1], more[|more| - 1];
      var m := After(ops + front);
      StaysUntilStopped(ops, front, c);
      assert (ops + more)[..|ops + more| - 1] == ops + front;
      NeverTwice(ops + front);
      if Enabled(m, op) {
        StepKeeps(m, op, c);
        KeepsTwice(After(ops).st, m.st, Do(m, op).st, c);
      }
    }
  }

  // ---------- Starting ----------

  function StartsOf(components: seq<Id>): (part: seq<Event>)
    ensures |part| == |components|
    ensures forall k | 0 <= k < |components| :: part[k] == Started(components[k])
  {
    seq(|components|, k requires 0 <= k < |components| => Started(components[k]))
  }

  // The sweep of a start whose callbacks do nothing calls every component once, in order.
  lemma {:induction false} QuietStartSweep(st: State, i: nat)
    requires i <= |st.components|
    ensures Sweep(st, i, Starting, []) == st.(log := st.log + StartsOf(st.components[i..]))
    decreases |st.components| - i
  {
    if i == |st.components| {
      assert st.log + StartsOf(st.components[i..]) == st.log;
    } else {
      var next := Log(st, Started(st.components[i]));
      assert Callback(st, i, Starting, Return) == next;
      QuietStartSweep(next, i + 1);
      assert StartsOf(st.components[i..]) == [Started(st.components[i])] + StartsOf(st.components[i + 1..]);
      assert st.log + StartsOf(st.components[i..]) == next.log + StartsOf(st.components[i + 1..]);
    }
  }

  lemma QuietStart(st: State)
    requires !st.running
    ensures StartIn(st, []) == State(st.components, true, st.log + StartsOf(st.components))
  {
    QuietStartSweep(st.(running := true), 0);
    assert st.components[0..] == st.components;
  }

  ghost predicate AreRegistrations(ops: seq<Op>, cs: seq<Id>) {
    |ops| == |cs| && forall i | 0 <= i < |cs| :: ops[i].RegisterOp? && ops[i].c == cs[i]
  }

  // Registering components on a new manager lists them in that order and calls nobody.
  lemma {:induction false} RegistrationsAreListed(ops: seq<Op>, cs: seq<Id>)
    requires AreRegistrations(ops, cs) && NoDuplicates(cs)
    ensures After(ops) == Manager(State(cs, false, []), false)
  {
    if ops != [] {
      var n := |ops| - 1;
      RegistrationsAreListed(ops[..n], cs[..n]);
      assert cs[n] !in cs[..n] by {
        assert forall i | 0 <= i < n :: cs[..n][i] == cs[i];
      }
      assert cs == cs[..n] + [cs[n]];
    }
  }

  // Started afterwards, with callbacks that do nothing, it calls exactly these, once each, in order.
  lemma RegisteredAreStarted(ops: seq<Op>, cs: seq<Id>)
    requires AreRegistrations(ops, cs) && NoDuplicates(cs)
    ensures
      var st := After(ops + [StartOp([])]).st;
      && st.components == cs && st.running && |st.log| == |cs|
      && forall k | 0 <= k < |cs| :: st.log[k] == Started(cs[k])
  {
    RegistrationsAreListed(ops, cs);
    assert (ops + [StartOp([])])[..|ops|] == ops;
    QuietStart(State(cs, false, []));
    assert [] + StartsOf(cs) == StartsOf(cs);
  }

  // What a start callback registers is started on the spot, and once more when the loop gets to it.
  lemma RegisteredByACallbackIsStartedTwice()
    ensures StartIn(State([1], false, []), [Register(2, Return, Return)])
      == State([1, 2], true, [Started(1), Started(2), Started(2)])
  {
    var begin, script := State([1], true, []), Register(2, Return, Return);
    var first := State([1, 2], true, [Started(1), Started(2)]);
    assert Log(begin, Started(1)) == State([1], true, [Started(1)]);
    assert RegisterIn(State([1], true, [Started(1)]), 2, Return) == first;
    assert ScriptAt([script], 0) == script && Callback(begin, 0, Starting, script) == first;
    assert Callback(first, 1, Starting, Return) == State([1, 2], true, [Started(1), Started(2), Started(2)]);
  }
}
