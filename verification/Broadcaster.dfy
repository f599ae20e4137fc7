/**
 The frontend snapshot broadcaster. Tasks change the agents' state first and set a shared
 event later, after other awaits; the broadcaster waits for the event, sleeps, clears it
 and sends a snapshot to the browsers one by one. Every step below is the code between two
 awaits of one task, and steps of different tasks interleave freely.
 */
module Broadcaster {
  import opened Prelude
  import opened RuntimeState
  import opened AgentRuntime

  type Client = nat
  type Stats = map<AgentId, AgentState>
  type Snapshot = map<AgentId, Summary>

  datatype Phase =
    | Waiting
    | Sleeping
    | Sending(data: Snapshot, todo: set<Client>)

  // `unsignalled` counts the changes whose task has not reached its event.set() yet;
  // `views` is the last snapshot handed to each browser that ever connected.
  datatype System = System(
    stats: Stats,
    eventSet: bool,
    unsignalled: nat,
    phase: Phase,
    clients: set<Client>,
    views: map<Client, Snapshot>)

  const START := System(map[], false, 0, Waiting, {}, map[])

  datatype Step =
    | Change(stats: Stats)
    | Signal(changes: nat)
    | Wake
    | ClearAndBuild
    | Send(c: Client, delivered: bool)
    | FinishBroadcast
    | Join(c: Client)
    | Leave(c: Client)

  predicate Next(s: System, step: Step, s': System) {
    match step
    case Change(stats) =>
      s' == s.(stats := stats, unsignalled := s.unsignalled + 1)
    case Signal(changes) =>
      && changes <= s.unsignalled
      && s' == s.(eventSet := true, unsignalled := s.unsignalled - changes)
    case Wake =>
      s.phase == Waiting && s.eventSet && s' == s.(phase := Sleeping)
    case ClearAndBuild =>
      && s.phase == Sleeping
      && s' == s.(eventSet := false,
                  phase := if s.clients != {} then Sending(SnapshotOf(s.stats), s.clients) else Waiting)
    case Send(c, delivered) =>
      && s.phase.Sending? && c in s.phase.todo
      && var rest := Sending(s.phase.data, s.phase.todo - {c});
         s' == if delivered then s.(phase := rest, views := s.views[c := s.phase.data])
               else s.(phase := rest, clients := s.clients - {c})
    case FinishBroadcast =>
      s.phase.Sending? && s.phase.todo == {} && s' == s.(phase := Waiting)
    case Join(c) =>
      // A new browser starts out empty and gets its own snapshot if any agent is known.
      && c !in s.views && c !in s.clients
      && s' == s.(clients := s.clients + {c},
                  views := s.views[c := if s.stats != map[] then SnapshotOf(s.stats) else map[]])
    case Leave(c) =>
      s' == s.(clients := s.clients - {c})
  }

  predicate IsRun(run: seq<System>, steps: seq<Step>) {
    && |run| == |steps| + 1
    && run[0] == START
    && forall i | 0 <= i < |steps| :: Next(run[i], steps[i], run[i + 1])
  }

  // Nothing is on its way to the broadcaster.
  predicate Settled(s: System) {
    !s.eventSet && s.unsignalled == 0
  }

  predicate AwaitsSend(s: System, c: Client) {
    s.phase.Sending? && c in s.phase.todo
  }

  predicate UpToDate(s: System, c: Client) {
    if AwaitsSend(s, c) then s.phase.data == SnapshotOf(s.stats)
    else c in s.views && s.views[c] == SnapshotOf(s.stats)
  }

  predicate Inv(s: System) {
    && (s.phase == Sleeping ==> s.eventSet)
    && (s.phase.Sending? ==> s.phase.todo <= s.views.Keys)
    && s.clients <= s.views.Keys
    && (Settled(s) ==> forall c | c in s.clients :: UpToDate(s, c))
  }

  lemma StepKeepsInv(s: System, step: Step, s': System)
    requires Inv(s) && Next(s, step, s')
    ensures Inv(s')
  {
    if Settled(s') {
      forall c | c in s'.clients ensures UpToDate(s', c) {
        if step.Join? && c == step.c {
          assert SnapshotOf(map[]) == map[];
        } else if !step.ClearAndBuild? {
          assert UpToDate(s, c);
        }
      }
    }
  }

  lemma {:induction false} InvHolds(run: seq<System>, steps: seq<Step>, n: nat)
    requires IsRun(run, steps) && n < |run|
    ensures Inv(run[n])
  {
    if n > 0 {
      InvHolds(run, steps, n - 1);
      StepKeepsInv(run[n - 1], steps[n - 1], run[n]);
    }
  }

  // No lost update: in every interleaving, whenever the event is clear and no change awaits
  // its signal, each connected browser has been handed the snapshot of the current state,
  // or stands in the queue of a broadcast of exactly that snapshot.
  lemma NoLostUpdate(run: seq<System>, steps: seq<Step>, n: nat, c: Client)
    requires IsRun(run, steps) && n < |run|
    requires Settled(run[n]) && c in run[n].clients
    ensures UpToDate(run[n], c)
    ensures run[n].phase == Waiting ==> c in run[n].views && run[n].views[c] == SnapshotOf(run[n].stats)
  {
    InvHolds(run, steps, n);
  }

  // The two hypotheses are needed: with a change still unsignalled a browser can be stale
  // although the event is clear.
  lemma UnsignalledChangeIsUnseen(a: AgentId, state: AgentState, c: Client)
    ensures exists run: seq<System>, steps: seq<Step> ::
      && IsRun(run, steps) && steps == [Join(c), Change(map[a := state])]
      && !run[2].eventSet && run[2].phase == Waiting && c in run[2].clients
      && c in run[2].views && run[2].views[c] != SnapshotOf(run[2].stats)
  {
    var steps := [Join(c), Change(map[a := state])];
    var s1 := START.(clients := {c}, views := map[c := map[]]);
    var s2 := s1.(stats := map[a := state], unsignalled := 1);
    var run := [START, s1, s2];
    assert START.clients + {c} == {c};
    assert Next(run[0], steps[0], run[1]);
    assert Next(run[1], steps[1], run[2]);
    assert a in SnapshotOf(s2.stats) && a !in s2.views[c];
    assert IsRun(run, steps);
  }

  // ---------- Every change arrives ----------

  // The broadcaster's own steps, with every send delivered.
  predicate IsBroadcast(step: Step) {
    step.Wake? || step.ClearAndBuild? || step.FinishBroadcast? || (step.Send? && step.delivered)
  }

  // A way from `s` to `s'` by such steps.
  ghost predicate Leads(s: System, path: seq<System>, steps: seq<Step>, s': System) {
    && |path| == |steps| + 1 && path[0] == s && path[|steps|] == s'
    && forall i | 0 <= i < |steps| :: IsBroadcast(steps[i]) && Next(path[i], steps[i], path[i + 1])
  }

  lemma OneMore(s: System, path: seq<System>, steps: seq<Step>, s1: System, step: Step, s2: System)
    returns (path': seq<System>, steps': seq<Step>)
    requires Leads(s, path, steps, s1) && IsBroadcast(step) && Next(s1, step, s2)
    ensures Leads(s, path', steps', s2)
  {
    path', steps' := path + [s2], steps + [step];
    forall i | 0 <= i < |steps'| ensures IsBroadcast(steps'[i]) && Next(path'[i], steps'[i], path'[i + 1]) {
      if i < |steps| {
        assert path'[i] == path[i] && path'[i + 1] == path[i + 1] && steps'[i] == steps[i];
      }
    }
  }

  // From `s` everybody in the queue has been sent the snapshot, nobody else anything.
  ghost predicate Served(s: System, s': System)
    requires s.phase.Sending?
  {
    && s' == s.(phase := Waiting, views := s'.views)
    && (forall c | c in s.phase.todo :: c in s'.views && s'.views[c] == s.phase.data)
    && (forall c | c !in s.phase.todo :: Lookup(s'.views, c) == Lookup(s.views, c))
  }

  function Sent(s: System, c: Client): System
    requires s.phase.Sending?
  {
    s.(phase := Sending(s.phase.data, s.phase.todo - {c}), views := s.views[c := s.phase.data])
  }

  lemma ServedAfterSend(s: System, c: Client, s': System)
    requires s.phase.Sending? && c in s.phase.todo && Served(Sent(s, c), s')
    ensures Served(s, s')
  {
    var s1 := Sent(s, c);
    assert Lookup(s'.views, c) == Lookup(s1.views, c) == Some(s.phase.data);
    forall d | d in s.phase.todo ensures d in s'.views && s'.views[d] == s.phase.data {
      if d != c {
        assert d in s1.phase.todo;
      }
    }
    forall d | d !in s.phase.todo ensures Lookup(s'.views, d) == Lookup(s.views, d) {
      assert d !in s1.phase.todo && Lookup(s1.views, d) == Lookup(s.views, d);
    }
  }

  // Whoever stands in the queue is sent the snapshot that was built, and the broadcaster waits again.
  lemma {:induction false} QueueIsServed(s: System, path: seq<System>, steps: seq<Step>, s1: System, todo: set<Client>)
    returns (path': seq<System>, steps': seq<Step>, s': System)
    requires Leads(s, path, steps, s1) && s1.phase.Sending? && s1.phase.todo == todo
    ensures Leads(s, path', steps', s') && Served(s1, s')
    decreases todo
  {
    if todo == {} {
      s' := s1.(phase := Waiting);
      path', steps' := OneMore(s, path, steps, s1, FinishBroadcast, s');
    } else {
      var c :| c in todo;
      var path2, steps2 := OneMore(s, path, steps, s1, Send(c, true), Sent(s1, c));
      path', steps', s' := QueueIsServed(s, path2, steps2, Sent(s1, c), todo - {c});
      ServedAfterSend(s1, c, s');
    }
  }

  // One round of the broadcaster, from sleep to sleep, shows everybody the state of the moment.
  lemma RoundIsServed(s: System, path: seq<System>, steps: seq<Step>, s1: System)
    returns (path': seq<System>, steps': seq<Step>, s': System)
    requires Leads(s, path, steps, s1) && s1.phase == Sleeping
    ensures Leads(s, path', steps', s')
    ensures s'.stats == s1.stats && s'.clients == s1.clients && s'.phase == Waiting && !s'.eventSet
    ensures forall c | c in s'.clients :: c in s'.views && s'.views[c] == SnapshotOf(s1.stats)
  {
    var s2 := s1.(eventSet := false, phase := if s1.clients != {} then Sending(SnapshotOf(s1.stats), s1.clients) else Waiting);
    path', steps' := OneMore(s, path, steps, s1, ClearAndBuild, s2);
    s' := s2;
    if s1.clients != {} {
      path', steps', s' := QueueIsServed(s, path', steps', s2, s1.clients);
    }
  }

  // Nothing is stuck: from every state in which a change was signalled the broadcaster alone, if its
  // sends arrive, comes to a state in which every browser has the snapshot of the current agents.
  lemma SignalledChangesArrive(s: System) returns (path: seq<System>, steps: seq<Step>, s': System)
    requires s.eventSet
    ensures Leads(s, path, steps, s')
    ensures s'.stats == s.stats && s'.clients == s.clients && s'.phase == Waiting && !s'.eventSet
    ensures forall c | c in s'.clients :: c in s'.views && s'.views[c] == SnapshotOf(s.stats)
  {
    path, steps, s' := [s], [], s;
    if s'.phase.Sending? {
      path, steps, s' := QueueIsServed(s, path, steps, s', s'.phase.todo);
    }
    if s'.phase == Waiting {
      var awake := s'.(phase := Sleeping);
      path, steps := OneMore(s, path, steps, s', Wake, awake);
      s' := awake;
    }
    path, steps, s' := RoundIsServed(s, path, steps, s');
  }
}
