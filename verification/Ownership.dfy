/**
 Which socket owns an agent, over every interleaving of the server's tasks. Each step is
 the code between two awaits, so a timeout is two steps: popping the socket, and, once the
 socket has been closed, resetting the agent's state.
 */
module Ownership {
  import opened Prelude
  import opened JsonValues
  import opened RuntimeState
  import opened AgentRuntime

  // `pending` holds the agents whose socket was popped and whose reset is still to come.
  datatype Server = Server(
    stats: map<AgentId, AgentState>,
    active: map<AgentId, Socket>,
    prev: map<AgentId, SeenMap>,
    pending: multiset<AgentId>)

  const START := Server(map[], map[], map[], multiset{})

  datatype Step =
    | Register(a: AgentId, ws: Socket, now: int)
    | Unregister(a: AgentId, from: Option<Socket>, now: int)
    | PopForTimeout(a: AgentId)
    | PopForShutdown(a: AgentId)
    | FinishReset(a: AgentId, now: int)
    | Remove(a: AgentId)
    | Beat(beat: Heartbeat, now: int)

  predicate Detaches(active: map<AgentId, Socket>, a: AgentId, from: Option<Socket>) {
    a != "" && (from.None? || a !in active || active[a] == from.value)
  }

  ghost predicate Next(s: Server, step: Step, s': Server) {
    match step
    case Register(a, ws, now) =>
      s' == s.(active := s.active[a := ws], stats := MarkStats(s.stats, a, true, now))
    case Unregister(a, from, now) =>
      s' == if Detaches(s.active, a, from)
            then s.(active := s.active - {a}, stats := ResetStats(s.stats, a, now), prev := s.prev - {a})
            else s
    case PopForTimeout(a) =>
      s' == if a in s.active then s.(active := s.active - {a}, pending := s.pending + multiset{a}) else s
    case PopForShutdown(a) =>
      s' == s.(active := s.active - {a}, pending := s.pending + multiset{a})
    case FinishReset(a, now) =>
      && a in s.pending
      && s' == s.(stats := ResetStats(s.stats, a, now), prev := s.prev - {a}, pending := s.pending - multiset{a})
    case Remove(a) =>
      s' == s.(active := s.active - {a}, stats := s.stats - {a}, prev := s.prev - {a})
    case Beat(beat, now) =>
      var a := beat.Agent();
      && a in s'.prev
      && s' == s.(stats := s.stats[a := MergeState(StateOf(s.stats, a), beat, now)], prev := s.prev[a := s'.prev[a]])
      && exists emitted :: Detected(SeenOf(s.prev, a), s'.stats[a], s'.prev[a], emitted)
  }

  ghost predicate IsRun(run: seq<Server>, steps: seq<Step>) {
    && |run| == |steps| + 1
    && run[0] == START
    && forall i | 0 <= i < |steps| :: Next(run[i], steps[i], run[i + 1])
  }

  // ---------- The cache ----------

  // In every interleaving, also between the two halves of a timeout, the event cache is
  // the projection of the merged state.
  lemma {:induction false} CacheAlwaysAgrees(run: seq<Server>, steps: seq<Step>, n: nat)
    requires IsRun(run, steps) && n < |run|
    ensures CacheAgrees(run[n].stats, run[n].prev)
  {
    if n > 0 {
      CacheAlwaysAgrees(run, steps, n - 1);
      StepKeepsCache(run[n - 1], steps[n - 1], run[n]);
    }
  }

  lemma StepKeepsCache(s: Server, step: Step, s': Server)
    requires Next(s, step, s') && CacheAgrees(s.stats, s.prev)
    ensures CacheAgrees(s'.stats, s'.prev)
  {
    match step
    case Register(a, ws, now) => MarkKeepsCache(s.stats, s.prev, a, true, now);
    case Unregister(a, from, now) => ResetKeepsCache(s.stats, s.prev, a, now);
    case PopForTimeout(a) =>
    case PopForShutdown(a) =>
    case FinishReset(a, now) => ResetKeepsCache(s.stats, s.prev, a, now);
    case Remove(a) => RemoveKeepsCache(s.stats, s.prev, a);
    case Beat(beat, now) =>
      var a := beat.Agent();
      HeartbeatKeepsCache(s.stats, s.prev, a, s'.stats[a], s'.prev[a]);
  }

  // ---------- The socket ----------

  // The steps that may take the agent away from its current socket.
  predicate TakesAway(step: Step, a: AgentId, ws: Socket) {
    match step
    case Register(b, ws', _) => b == a && ws' != ws
    case Unregister(b, from, _) => b == a && (from.None? || from.value == ws)
    case PopForTimeout(b) => b == a
    case PopForShutdown(b) => b == a
    case FinishReset(_, _) => false
    case Remove(b) => b == a
    case Beat(_, _) => false
  }

  // Once registered, a socket keeps its agent through any run of other steps; in
  // particular through every late unregister of a socket it superseded.
  lemma {:induction false} OwnerStays(run: seq<Server>, steps: seq<Step>, i: nat, n: nat, a: AgentId, ws: Socket)
    requires IsRun(run, steps) && i <= n < |run|
    requires a in run[i].active && run[i].active[a] == ws
    requires forall j | i <= j < n :: !TakesAway(steps[j], a, ws)
    ensures a in run[n].active && run[n].active[a] == ws
  {
    if i < n {
      OwnerStays(run, steps, i, n - 1, a, ws);
      StepKeepsOwner(run[n - 1], steps[n - 1], run[n], a, ws);
    }
  }

  lemma StepKeepsOwner(s: Server, step: Step, s': Server, a: AgentId, ws: Socket)
    requires Next(s, step, s') && a in s.active && s.active[a] == ws && !TakesAway(step, a, ws)
    ensures a in s'.active && s'.active[a] == ws
  {
  }

  // And each of those steps does take it away.
  lemma TakingAwayTakes(s: Server, step: Step, s': Server, a: AgentId, ws: Socket)
    requires Next(s, step, s') && a != "" && a in s.active && s.active[a] == ws
    ensures TakesAway(step, a, ws) <==> !(a in s'.active && s'.active[a] == ws)
  {
  }

  // ---------- The connected flag ----------

  // The last word about the agent's flag was a reset that finished while the agent was
  // connected again: no registration and no heartbeat has followed it.
  ghost predicate ResetHadLastWord(run: seq<Server>, steps: seq<Step>, n: nat, a: AgentId)
    requires |run| == |steps| + 1 && n < |run|
  {
    n > 0 &&
    match steps[n - 1]
    case Register(b, _, _) => b != a && ResetHadLastWord(run, steps, n - 1, a)
    case Beat(beat, _) => beat.Agent() != a && ResetHadLastWord(run, steps, n - 1, a)
    case FinishReset(b, _) => (b == a && a in run[n].active) || ResetHadLastWord(run, steps, n - 1, a)
    case _ => ResetHadLastWord(run, steps, n - 1, a)
  }

  // Over every run, an agent with a socket is flagged connected exactly unless such a late
  // reset had the last word.
  lemma {:induction false} ConnectedUnlessClobbered(run: seq<Server>, steps: seq<Step>, n: nat, a: AgentId)
    requires IsRun(run, steps) && n < |run|
    requires a in run[n].active
    ensures IsConnected(StateOf(run[n].stats, a)) <==> !ResetHadLastWord(run, steps, n, a)
  {
    if n > 0 {
      var s, s' := run[n - 1], run[n];
      assert Next(s, steps[n - 1], s');
      if a in s.active {
        ConnectedUnlessClobbered(run, steps, n - 1, a);
      }
      if steps[n - 1].FinishReset? && steps[n - 1].a == a {
        ActiveIsKnown(run, steps, n - 1, a);
      }
    }
  }

  lemma {:induction false} ActiveIsKnown(run: seq<Server>, steps: seq<Step>, n: nat, a: AgentId)
    requires IsRun(run, steps) && n < |run| && a in run[n].active
    ensures a in run[n].stats && run[n].stats[a].connection.Present?
  {
    if n > 0 {
      var s := run[n - 1];
      assert Next(s, steps[n - 1], run[n]);
      if a in s.active {
        ActiveIsKnown(run, steps, n - 1, a);
      }
    }
  }

  // No reset finishes while its agent has a socket: true when timeouts are atomic.
  ghost predicate AtomicTimeouts(run: seq<Server>, steps: seq<Step>)
    requires |run| == |steps| + 1
  {
    forall i | 0 <= i < |steps| && steps[i].FinishReset? :: steps[i].a !in run[i].active
  }

  // With atomic timeouts an active agent is always flagged connected.
  lemma ActiveIsConnected(run: seq<Server>, steps: seq<Step>, n: nat, a: AgentId)
    requires IsRun(run, steps) && n < |run| && AtomicTimeouts(run, steps)
    requires a in run[n].active
    ensures IsConnected(StateOf(run[n].stats, a))
  {
    NoLateReset(run, steps, n, a);
    ConnectedUnlessClobbered(run, steps, n, a);
  }

  lemma {:induction false} NoLateReset(run: seq<Server>, steps: seq<Step>, n: nat, a: AgentId)
    requires IsRun(run, steps) && n < |run| && AtomicTimeouts(run, steps)
    ensures !ResetHadLastWord(run, steps, n, a)
  {
    if n > 0 {
      NoLateReset(run, steps, n - 1, a);
      assert Next(run[n - 1], steps[n - 1], run[n]);
    }
  }

  // Whatever went before, one heartbeat sets the flag, and until another reset finishes
  // an agent that keeps its socket keeps the flag.
  lemma {:induction false} HeartbeatRepairs(run: seq<Server>, steps: seq<Step>, i: nat, n: nat, a: AgentId, ws: Socket)
    requires IsRun(run, steps) && i < n < |run|
    requires steps[i].Beat? && steps[i].beat.Agent() == a
    requires a in run[i].active && run[i].active[a] == ws
    requires forall j | i < j < n :: !TakesAway(steps[j], a, ws) && !(steps[j].FinishReset? && steps[j].a == a)
    ensures a in run[n].active && IsConnected(StateOf(run[n].stats, a))
  {
    assert Next(run[i], steps[i], run[i + 1]);
    OwnerStays(run, steps, i + 1, n, a, ws);
    RepairedUntil(run, steps, i, n, a);
    ConnectedUnlessClobbered(run, steps, n, a);
  }

  lemma {:induction false} RepairedUntil(run: seq<Server>, steps: seq<Step>, i: nat, n: nat, a: AgentId)
    requires IsRun(run, steps) && i < n < |run|
    requires steps[i].Beat? && steps[i].beat.Agent() == a
    requires forall j | i < j < n :: !(steps[j].FinishReset? && steps[j].a == a)
    ensures !ResetHadLastWord(run, steps, n, a)
  {
    if i + 1 < n {
      RepairedUntil(run, steps, i, n - 1, a);
    }
  }

  // The gap is real: an agent that reconnects while its old socket is being closed ends up
  // with a socket and a cleared flag.
  lemma ReconnectInTheGap(a: AgentId, old_: Socket, new_: Socket, t: int)
    ensures exists run: seq<Server>, steps: seq<Step> ::
      && IsRun(run, steps)
      && steps == [Register(a, old_, t), PopForTimeout(a), Register(a, new_, t), FinishReset(a, t)]
      && a in run[4].active && run[4].active[a] == new_
      && !IsConnected(StateOf(run[4].stats, a))
  {
    var steps := [Register(a, old_, t), PopForTimeout(a), Register(a, new_, t), FinishReset(a, t)];
    var up := MarkStats(map[], a, true, t);
    var s1 := START.(active := map[a := old_], stats := up);
    var s2 := s1.(active := map[], pending := multiset{a});
    var s3 := s2.(active := map[a := new_], stats := MarkStats(up, a, true, t));
    var s4 := s3.(stats := ResetStats(s3.stats, a, t), prev := map[] - {a}, pending := s3.pending - multiset{a});
    var run := [START, s1, s2, s3, s4];
    assert Next(run[0], steps[0], run[1]);
    assert s1.active - {a} == map[];
    assert START.pending + multiset{a} == multiset{a};
    assert Next(run[1], steps[1], run[2]);
    assert Next(run[2], steps[2], run[3]);
    assert Next(run[3], steps[3], run[4]);
    assert IsRun(run, steps);
  }

  // ---------- The heartbeat deadline ----------

  function Max(x: int, y: int): int {
    if x >= y then x else y
  }

  // The watchdog sleeps this long between two scans.
  const SCAN_SECONDS: int := Max(1, HEARTBEAT_TIMEOUT_SECONDS / 3)

  // Clocks are floored to whole seconds. A silence of at most 14 seconds is never flagged,
  // one of at least 15 always is, for every connected agent last heard at `heard`.
  lemma DeadlineWithFlooredClocks(state: AgentState, heard: real, scan: real)
    requires IsConnected(state) && state.connection.value.lastSeen == heard.Floor
    ensures scan - heard <= 14.0 ==> !TimedOut(state, scan.Floor, HEARTBEAT_TIMEOUT_SECONDS)
    ensures scan - heard >= 15.0 ==> TimedOut(state, scan.Floor, HEARTBEAT_TIMEOUT_SECONDS)
  {
    if scan - heard <= 14.0 {
      FloorIsMonotonic(scan, heard + 14.0);
      assert (heard + 14.0).Floor == heard.Floor + 14;
    }
    if scan - heard >= 15.0 {
      FloorIsMonotonic(heard + 15.0, scan);
      assert (heard + 15.0).Floor == heard.Floor + 15;
    }
  }

  lemma FloorIsMonotonic(x: real, y: real)
    requires x <= y
    ensures x.Floor <= y.Floor
  {
  }

  predicate FlaggedInTime(state: AgentState, heard: real, scan: real) {
    && heard + 15.0 <= scan <= heard + 20.0
    && TimedOut(state, scan.Floor, HEARTBEAT_TIMEOUT_SECONDS)
  }

  // With scans at most five seconds apart, a silent agent is flagged at a scan that comes
  // between 15 and 20 seconds after it was last heard.
  lemma {:induction false} FlaggedWithinTwentySeconds(state: AgentState, heard: real, scans: seq<real>)
    requires IsConnected(state) && state.connection.value.lastSeen == heard.Floor
    requires |scans| > 0 && scans[0] <= heard + 20.0 && heard + 15.0 <= scans[|scans| - 1]
    requires forall i | 0 <= i < |scans| - 1 :: scans[i] <= scans[i + 1] <= scans[i] + SCAN_SECONDS as real
    ensures exists i :: 0 <= i < |scans| && FlaggedInTime(state, heard, scans[i])
  {
    if scans[0] >= heard + 15.0 {
      DeadlineWithFlooredClocks(state, heard, scans[0]);
      assert FlaggedInTime(state, heard, scans[0]);
    } else {
      var rest := scans[1..];
      forall i | 0 <= i < |rest| - 1 ensures rest[i] <= rest[i + 1] <= rest[i] + SCAN_SECONDS as real {
        assert rest[i] == scans[i + 1] && rest[i + 1] == scans[i + 2];
      }
      assert scans[0] <= scans[0 + 1] <= scans[0] + SCAN_SECONDS as real;
      FlaggedWithinTwentySeconds(state, heard, rest);
      var i :| 0 <= i < |rest| && FlaggedInTime(state, heard, rest[i]);
      assert scans[i + 1] == rest[i];
    }
  }
}
