/**
 Self-stabilisation: one sync heartbeat makes the server forget whatever it held before,
 so lost or reordered heartbeats stop mattering from the next sync on.
 */
module Stabilisation {
  import opened Prelude
  import opened JsonValues
  import opened RuntimeState

  // The user sessions a browser can see, with their process tables.
  function ProcessView(state: AgentState): map<SessionKey, map<Pid, Record>> {
    map k | k in state.sessions && Visible(k) :: state.sessions[k].processes
  }

  function ReportedView(beat: Heartbeat): map<SessionKey, map<Pid, Record>> {
    map k | k in beat.Status() && Visible(k) && beat.Status()[k].Object? :: beat.Status()[k].processes
  }

  // The session ids that go into the event rows and the cache.
  function IdView(state: AgentState): map<SessionKey, Json> {
    map k | k in state.sessions && Visible(k) :: SessionId(state.sessions[k])
  }

  lemma SyncShowsThePayload(state: AgentState, beat: Heartbeat, now: int)
    requires beat.sync
    ensures ProcessView(MergeState(state, beat, now)) == ReportedView(beat)
  {
    var after := MergeState(state, beat, now);
    var kept := DropStale(state.sessions, beat.Status(), true);
    forall k: SessionKey | Visible(k)
      ensures k in after.sessions <==> IsReported(beat.Status(), k)
      ensures k in after.sessions ==> after.sessions[k].processes == beat.Status()[k].processes
    {
      assert k in after.sessions <==>
        k in kept.Keys + beat.Status().Keys && MergeEntry(Lookup(kept, k), Lookup(beat.Status(), k), true).Some?;
    }
  }

  function MergeAll(state: AgentState, beats: seq<(Heartbeat, int)>): AgentState {
    if beats == [] then state
    else
      var last := beats[|beats| - 1];
      MergeState(MergeAll(state, beats[..|beats| - 1]), last.0, last.1)
  }

  lemma MergeKeepsAgreement(s1: AgentState, s2: AgentState, beat: Heartbeat, now: int)
    requires ProcessView(s1) == ProcessView(s2)
    ensures ProcessView(MergeState(s1, beat, now)) == ProcessView(MergeState(s2, beat, now))
    ensures IdView(s1) == IdView(s2) ==> IdView(MergeState(s1, beat, now)) == IdView(MergeState(s2, beat, now))
  {
    var t1, t2 := MergeState(s1, beat, now), MergeState(s2, beat, now);
    forall k: SessionKey | Visible(k) ensures SameProcesses(Lookup(t1.sessions, k), Lookup(t2.sessions, k)) {
      EntriesAgree(s1, s2, beat, k);
    }
    SameEntriesSameView(t1, t2);
    if IdView(s1) == IdView(s2) {
      forall k: SessionKey | Visible(k) ensures SameId(Lookup(t1.sessions, k), Lookup(t2.sessions, k)) {
        EntriesAgree(s1, s2, beat, k);
      }
      SameEntriesSameIds(t1, t2);
    }
  }

  predicate SameProcesses(e1: Option<Session>, e2: Option<Session>) {
    (e1.Some? <==> e2.Some?) && (e1.Some? ==> e1.value.processes == e2.value.processes)
  }

  predicate SameId(e1: Option<Session>, e2: Option<Session>) {
    (e1.Some? <==> e2.Some?) && (e1.Some? ==> SessionId(e1.value) == SessionId(e2.value))
  }

  lemma SameEntriesSameView(t1: AgentState, t2: AgentState)
    requires forall k: SessionKey | Visible(k) :: SameProcesses(Lookup(t1.sessions, k), Lookup(t2.sessions, k))
    ensures ProcessView(t1) == ProcessView(t2)
  {
    forall k: SessionKey | Visible(k) ensures k in t1.sessions <==> k in t2.sessions {
      assert SameProcesses(Lookup(t1.sessions, k), Lookup(t2.sessions, k));
    }
    forall k: SessionKey | Visible(k) && k in t1.sessions ensures t1.sessions[k].processes == t2.sessions[k].processes {
      assert SameProcesses(Lookup(t1.sessions, k), Lookup(t2.sessions, k));
    }
  }

  lemma SameEntriesSameIds(t1: AgentState, t2: AgentState)
    requires forall k: SessionKey | Visible(k) :: SameId(Lookup(t1.sessions, k), Lookup(t2.sessions, k))
    ensures IdView(t1) == IdView(t2)
  {
    forall k: SessionKey | Visible(k) ensures k in t1.sessions <==> k in t2.sessions {
      assert SameId(Lookup(t1.sessions, k), Lookup(t2.sessions, k));
    }
    forall k: SessionKey | Visible(k) && k in t1.sessions ensures SessionId(t1.sessions[k]) == SessionId(t2.sessions[k]) {
      assert SameId(Lookup(t1.sessions, k), Lookup(t2.sessions, k));
    }
  }

  lemma EntriesAgree(s1: AgentState, s2: AgentState, beat: Heartbeat, k: SessionKey)
    requires ProcessView(s1) == ProcessView(s2) && Visible(k)
    ensures
      var e1 := Lookup(MergeSessions(s1.sessions, beat.Status(), beat.sync), k);
      var e2 := Lookup(MergeSessions(s2.sessions, beat.Status(), beat.sync), k);
      SameProcesses(e1, e2) && (IdView(s1) == IdView(s2) ==> SameId(e1, e2))
  {
    SameViewSameEntry(s1, s2, k);
    var kept1 := DropStale(s1.sessions, beat.Status(), beat.sync);
    var kept2 := DropStale(s2.sessions, beat.Status(), beat.sync);
    assert SameProcesses(Lookup(kept1, k), Lookup(kept2, k));
    MergeAtKey(s1.sessions, beat, k);
    MergeAtKey(s2.sessions, beat, k);
  }

  lemma MergeAtKey(sessions: map<SessionKey, Session>, beat: Heartbeat, k: SessionKey)
    ensures Lookup(MergeSessions(sessions, beat.Status(), beat.sync), k)
      == MergeEntry(Lookup(DropStale(sessions, beat.Status(), beat.sync), k), Lookup(beat.Status(), k), beat.sync)
  {
  }

  lemma SameViewSameEntry(s1: AgentState, s2: AgentState, k: SessionKey)
    requires ProcessView(s1) == ProcessView(s2) && Visible(k)
    ensures SameProcesses(Lookup(s1.sessions, k), Lookup(s2.sessions, k))
    ensures IdView(s1) == IdView(s2) ==> SameId(Lookup(s1.sessions, k), Lookup(s2.sessions, k))
  {
    assert k in s1.sessions <==> k in ProcessView(s1);
    assert k in s2.sessions <==> k in ProcessView(s2);
    if k in s1.sessions {
      assert ProcessView(s1)[k] == s1.sessions[k].processes;
      assert ProcessView(s2)[k] == s2.sessions[k].processes;
      if IdView(s1) == IdView(s2) {
        assert IdView(s1)[k] == SessionId(s1.sessions[k]);
        assert IdView(s2)[k] == SessionId(s2.sessions[k]);
      }
    }
  }

  // Any two histories of the same agent agree on every visible process after one common
  // sync heartbeat and a common suffix of heartbeats, sync or delta.
  lemma {:induction false} SyncStabilises(s1: AgentState, s2: AgentState, sync: Heartbeat, at1: int, at2: int,
                                          suffix: seq<(Heartbeat, int)>)
    requires sync.sync
    ensures ProcessView(MergeAll(MergeState(s1, sync, at1), suffix))
         == ProcessView(MergeAll(MergeState(s2, sync, at2), suffix))
  {
    if suffix == [] {
      SyncShowsThePayload(s1, sync, at1);
      SyncShowsThePayload(s2, sync, at2);
    } else {
      var before, last := suffix[..|suffix| - 1], suffix[|suffix| - 1];
      SyncStabilises(s1, s2, sync, at1, at2, before);
      MergeKeepsAgreement(MergeAll(MergeState(s1, sync, at1), before), MergeAll(MergeState(s2, sync, at2), before), last.0, last.1);
    }
  }

  ghost predicate NamesSessionIds(beat: Heartbeat) {
    forall k: SessionKey | k in beat.Status() && beat.Status()[k].Object? :: "session_id" in beat.Status()[k].fields
  }

  // When the sync also names the session ids, as the agent's sessions do, the two servers'
  // event caches agree as well, so from then on both log the same rows.
  lemma {:induction false} SyncStabilisesCaches(s1: AgentState, s2: AgentState, sync: Heartbeat, at1: int, at2: int,
                                                suffix: seq<(Heartbeat, int)>)
    requires sync.sync && NamesSessionIds(sync)
    ensures
      var t1, t2 := MergeAll(MergeState(s1, sync, at1), suffix), MergeAll(MergeState(s2, sync, at2), suffix);
      && IdView(t1) == IdView(t2)
      && (forall seen :: IsProjection(seen, t1) <==> IsProjection(seen, t2))
      && (UniquePids(t1) <==> UniquePids(t2))
  {
    var t1, t2 := MergeAll(MergeState(s1, sync, at1), suffix), MergeAll(MergeState(s2, sync, at2), suffix);
    SyncStabilises(s1, s2, sync, at1, at2, suffix);
    if suffix == [] {
      SyncNamesTheIds(s1, sync, at1);
      SyncNamesTheIds(s2, sync, at2);
    } else {
      var before, last := suffix[..|suffix| - 1], suffix[|suffix| - 1];
      SyncStabilises(s1, s2, sync, at1, at2, before);
      SyncStabilisesCaches(s1, s2, sync, at1, at2, before);
      MergeKeepsAgreement(MergeAll(MergeState(s1, sync, at1), before), MergeAll(MergeState(s2, sync, at2), before), last.0, last.1);
    }
    ViewsDetermineOccurrences(t1, t2);
    forall seen | IsProjection(seen, t1) ensures IsProjection(seen, t2) {
      ViewsDetermineProjection(t1, t2, seen);
    }
    forall seen | IsProjection(seen, t2) ensures IsProjection(seen, t1) {
      ViewsDetermineProjection(t2, t1, seen);
    }
  }

  lemma SyncNamesTheIds(state: AgentState, beat: Heartbeat, now: int)
    requires beat.sync && NamesSessionIds(beat)
    ensures IdView(MergeState(state, beat, now))
         == map k: SessionKey | k in beat.Status() && Visible(k) && beat.Status()[k].Object? :: beat.Status()[k].fields["session_id"]
  {
    var after := MergeState(state, beat, now);
    var kept := DropStale(state.sessions, beat.Status(), true);
    forall k: SessionKey | Visible(k)
      ensures k in after.sessions <==> IsReported(beat.Status(), k)
      ensures k in after.sessions ==> SessionId(after.sessions[k]) == beat.Status()[k].fields["session_id"]
    {
      assert k in after.sessions <==>
        k in kept.Keys + beat.Status().Keys && MergeEntry(Lookup(kept, k), Lookup(beat.Status(), k), true).Some?;
    }
  }

  lemma ViewsDetermineOccurrences(t1: AgentState, t2: AgentState)
    requires ProcessView(t1) == ProcessView(t2) && IdView(t1) == IdView(t2)
    ensures forall k, pid :: Occurs(t1, k, pid) <==> Occurs(t2, k, pid)
    ensures forall k, pid | Occurs(t1, k, pid) :: SeenAt(t1, k, pid) == SeenAt(t2, k, pid)
  {
    forall k, pid ensures Occurs(t1, k, pid) <==> Occurs(t2, k, pid) {
      assert Occurs(t1, k, pid) <==> k in ProcessView(t1) && pid in ProcessView(t1)[k];
      assert Occurs(t2, k, pid) <==> k in ProcessView(t2) && pid in ProcessView(t2)[k];
    }
    forall k, pid | Occurs(t1, k, pid) ensures SeenAt(t1, k, pid) == SeenAt(t2, k, pid) {
      assert ProcessView(t1)[k] == ProcessView(t2)[k] && IdView(t1)[k] == IdView(t2)[k];
    }
  }

  lemma ViewsDetermineProjection(t1: AgentState, t2: AgentState, seen: SeenMap)
    requires ProcessView(t1) == ProcessView(t2) && IdView(t1) == IdView(t2)
    requires IsProjection(seen, t1)
    ensures IsProjection(seen, t2)
  {
    ViewsDetermineOccurrences(t1, t2);
    forall pid | pid in seen ensures exists k :: Occurs(t2, k, pid) && seen[pid] == SeenAt(t2, k, pid) {
      var k :| Occurs(t1, k, pid) && seen[pid] == SeenAt(t1, k, pid);
      assert Occurs(t2, k, pid);
    }
  }
}
