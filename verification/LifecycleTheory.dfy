/**
 What holds of the lifecycle manager over whole runs, however its callbacks interfere: no
 component is registered twice, and exactly when a ticked component may not have been started.
 */
module LifecycleTheory {
  import opened Prelude
  import opened LifecycleModel

  // ---------- What a callback can change ----------

  // The last call that started or stopped the component was a start.
  ghost predicate Live(log: seq<Event>, c: Id) {
    log != [] && (log[|log| - 1] == Started(c) || (log[|log| - 1] != Stopped(c) && Live(log[..|log| - 1], c)))
  }

  // The components of a list that were not stopped in this part of the log.
  function Kept(xs: seq<Id>, part: seq<Event>): seq<Id> {
    if xs == [] then []
    else
      var n := |xs| - 1;
      Kept(xs[..n], part) + (if Stopped(xs[n]) in part then [] else [xs[n]])
  }

  ghost predicate NoTicks(part: seq<Event>) {
    forall c :: Ticked(c) !in part
  }

  // A component of the list that is not stopped is not started either.
  ghost predicate Undisturbed(xs: seq<Id>, part: seq<Event>) {
    forall c | c in xs && Stopped(c) !in part :: Started(c) !in part
  }

  ghost predicate AllLive(log: seq<Event>, xs: seq<Id>) {
    forall c | c in xs :: Live(log, c)
  }

  // From `st` to `st'` by calls that components make: `part` was logged, without ticks, and
  // `added` joined the list. Those not stopped keep their order and are not called; the ones
  // that joined have been started if the manager runs.
  ghost predicate Effect(st: State, st': State, part: seq<Event>, added: seq<Id>) {
    && st'.log == st.log + part && st'.running == st.running
    && st'.components == Kept(st.components, part) + added
    && NoDuplicates(st.components) && NoDuplicates(st'.components)
    && NoTicks(part) && Undisturbed(st.components, part)
    && (st.running ==> AllLive(st'.log, added))
  }

  lemma LiveAppend(log: seq<Event>, e: Event, c: Id)
    ensures Live(log + [e], c) <==> e == Started(c) || (e != Stopped(c) && Live(log, c))
  {
    assert (log + [e])[..|log|] == log;
  }

  lemma {:induction false} LiveUnchanged(log: seq<Event>, part: seq<Event>, c: Id)
    requires Started(c) !in part && Stopped(c) !in part
    ensures Live(log + part, c) <==> Live(log, c)
  {
    if part == [] {
      assert log + part == log;
    } else {
      var n := |part| - 1;
      LiveUnchanged(log, part[..n], c);
      LiveAppend(log + part[..n], part[n], c);
      assert log + part == (log + part[..n]) + [part[n]];
    }
  }

  lemma {:induction false} KeptMembers(xs: seq<Id>, part: seq<Event>)
    ensures forall c :: c in Kept(xs, part) <==> c in xs && Stopped(c) !in part
    ensures NoDuplicates(xs) ==> NoDuplicates(Kept(xs, part))
  {
    if xs != [] {
      var n := |xs| - 1;
      KeptMembers(xs[..n], part);
      assert xs == xs[..n] + [xs[n]];
      var front := Kept(xs[..n], part);
      if NoDuplicates(xs) {
        forall i | 0 <= i < |front| ensures front[i] != xs[n] {
          assert front[i] in front && front[i] in xs[..n];
        }
      }
    }
  }

  lemma {:induction false} KeptAppend(xs: seq<Id>, ys: seq<Id>, part: seq<Event>)
    ensures Kept(xs + ys, part) == Kept(xs, part) + Kept(ys, part)
  {
    if ys == [] {
      assert xs + ys == xs;
    } else {
      var n := |ys| - 1;
      KeptAppend(xs, ys[..n], part);
      assert (xs + ys)[..|xs| + n] == xs + ys[..n];
    }
  }

  lemma {:induction false} KeptTwice(xs: seq<Id>, p: seq<Event>, q: seq<Event>)
    ensures Kept(Kept(xs, p), q) == Kept(xs, p + q) == Kept(xs, q + p)
  {
    if xs != [] {
      var n := |xs| - 1;
      KeptTwice(xs[..n], p, q);
      KeptAppend(Kept(xs[..n], p), if Stopped(xs[n]) in p then [] else [xs[n]], q);
    }
  }

  lemma {:induction false} KeptAll(xs: seq<Id>, part: seq<Event>)
    requires forall c | c in xs :: Stopped(c) !in part
    ensures Kept(xs, part) == xs
  {
    if xs != [] {
      var n := |xs| - 1;
      KeptAll(xs[..n], part);
      assert xs == xs[..n] + [xs[n]];
    }
  }

  lemma {:induction false} RemoveIsKept(xs: seq<Id>, c: Id)
    requires NoDuplicates(xs)
    ensures Remove(xs, c) == Kept(xs, [Stopped(c)])
  {
    if xs != [] {
      KeptAppend([xs[0]], xs[1..], [Stopped(c)]);
      assert xs == [xs[0]] + xs[1..];
      assert Kept([xs[0]], [Stopped(c)]) == if xs[0] == c then [] else [xs[0]];
      if xs[0] == c {
        forall x | x in xs[1..] ensures x != c {}
        KeptAll(xs[1..], [Stopped(c)]);
      } else {
        RemoveIsKept(xs[1..], c);
      }
    }
  }

  lemma NothingHappens(st: State)
    requires NoDuplicates(st.components)
    ensures Effect(st, st, [], [])
  {
    KeptAll(st.components, []);
    assert st.log + [] == st.log && st.components + [] == st.components;
  }

  lemma ListsCompose(xs: seq<Id>, p: seq<Event>, q: seq<Event>, first: seq<Id>, second: seq<Id>)
    ensures Kept(Kept(xs, p) + first, q) + second == Kept(xs, p + q) + (Kept(first, q) + second)
  {
    KeptTwice(xs, p, q);
    KeptAppend(Kept(xs, p), first, q);
  }

  lemma UndisturbedTwice(xs: seq<Id>, ys: seq<Id>, p: seq<Event>, q: seq<Event>)
    requires Undisturbed(xs, p) && Undisturbed(ys, q) && forall c | c in Kept(xs, p) :: c in ys
    ensures Undisturbed(xs, p + q)
  {
    KeptMembers(xs, p);
    forall c | c in xs && Stopped(c) !in p + q ensures Started(c) !in p + q {
      assert Stopped(c) !in p && Stopped(c) !in q;
      assert c in Kept(xs, p);
    }
  }

  lemma StillLive(log: seq<Event>, ys: seq<Id>, q: seq<Event>, first: seq<Id>)
    requires AllLive(log, first) && Undisturbed(ys, q) && forall c | c in first :: c in ys
    ensures AllLive(log + q, Kept(first, q))
  {
    KeptMembers(first, q);
    forall c | c in Kept(first, q) ensures Live(log + q, c) {
      LiveUnchanged(log, q, c);
    }
  }

  lemma EffectsCompose(a: State, b: State, c: State, p: seq<Event>, q: seq<Event>, first: seq<Id>, second: seq<Id>)
    requires Effect(a, b, p, first) && Effect(b, c, q, second)
    ensures Effect(a, c, p + q, Kept(first, q) + second)
  {
    ListsCompose(a.components, p, q, first, second);
    UndisturbedTwice(a.components, b.components, p, q);
    if a.running {
      StillLive(b.log, b.components, q, first);
    }
  }

  lemma AppendEffect(st: State, c: Id)
    requires NoDuplicates(st.components) && c !in st.components && st.running
    ensures Effect(st, Log(st.(components := st.components + [c]), Started(c)), [Started(c)], [c])
  {
    KeptAll(st.components, [Started(c)]);
    LiveAppend(st.log, Started(c), c);
  }

  lemma AppendEffectIdle(st: State, c: Id)
    requires NoDuplicates(st.components) && c !in st.components && !st.running
    ensures Effect(st, st.(components := st.components + [c]), [], [c])
  {
    KeptAll(st.components, []);
  }

  lemma ListsAfterRemoval(xs: seq<Id>, p: seq<Event>, added: seq<Id>, c: Id)
    requires NoDuplicates(Kept(xs, p) + added)
    ensures
      var left := Remove(Kept(xs, p) + added, c);
      && left == Kept(xs, [Stopped(c)] + p) + Kept(added, [Stopped(c)])
      && c !in left && NoDuplicates(left)
  {
    RemoveIsKept(Kept(xs, p) + added, c);
    KeptMembers(Kept(xs, p) + added, [Stopped(c)]);
    KeptTwice(xs, p, [Stopped(c)]);
    KeptAppend(Kept(xs, p), added, [Stopped(c)]);
  }

  // Stopping a component, running its callback and taking it off the list.
  lemma RemovalEffect(st: State, stopped: State, c: Id, p: seq<Event>, added: seq<Id>)
    requires NoDuplicates(st.components) && c in st.components
    requires Effect(Log(st, Stopped(c)), stopped, p, added)
    ensures c !in Remove(stopped.components, c)
    ensures Effect(st, stopped.(components := Remove(stopped.components, c)), [Stopped(c)] + p, Kept(added, [Stopped(c)]))
  {
    ListsAfterRemoval(st.components, p, added, c);
    assert st.log + [Stopped(c)] + p == st.log + ([Stopped(c)] + p);
    KeptMembers(added, [Stopped(c)]);
  }

  lemma {:induction false} RemoveOfNothing(xs: seq<Id>, c: Id)
    requires c !in xs
    ensures Remove(xs, c) == xs
  {
    if xs != [] {
      RemoveOfNothing(xs[1..], c);
    }
  }

  lemma {:induction false} RegisterEffect(st: State, c: Id, onStart: Script) returns (part: seq<Event>, added: seq<Id>)
    requires NoDuplicates(st.components)
    ensures Effect(st, RegisterIn(st, c, onStart), part, added)
    decreases onStart, 1
  {
    if c in st.components {
      NothingHappens(st);
      part, added := [], [];
    } else {
      if st.running {
        AppendEffect(st, c);
        var started := Log(st.(components := st.components + [c]), Started(c));
        var p, a := ExecEffect(started, onStart);
        EffectsCompose(st, started, Exec(started, onStart), [Started(c)], p, [c], a);
        part, added := [Started(c)] + p, Kept([c], p) + a;
      } else {
        AppendEffectIdle(st, c);
        part, added := [], [c];
      }
    }
  }

  lemma {:induction false} UnregisterEffect(st: State, c: Id, onStop: Script) returns (part: seq<Event>, added: seq<Id>)
    requires NoDuplicates(st.components)
    ensures Effect(st, UnregisterIn(st, c, onStop).0, part, added)
    ensures c !in UnregisterIn(st, c, onStop).0.components
    decreases onStop, 1
  {
    if c !in st.components {
      NothingHappens(st);
      part, added := [], [];
    } else {
      var p, a := ExecEffect(Log(st, Stopped(c)), onStop);
      var stopped := Exec(Log(st, Stopped(c)), onStop);
      RemovalEffect(st, stopped, c, p, a);
      if c !in stopped.components {
        RemoveOfNothing(stopped.components, c);
      }
      part, added := [Stopped(c)] + p, Kept(a, [Stopped(c)]);
    }
  }

  lemma {:induction false} ExecEffect(st: State, script: Script) returns (part: seq<Event>, added: seq<Id>)
    requires NoDuplicates(st.components)
    ensures Effect(st, Exec(st, script), part, added)
    decreases script, 0
  {
    match script
    case Return =>
      NothingHappens(st);
      part, added := [], [];
    case Register(c, onStart, rest) =>
      var p, first := RegisterEffect(st, c, onStart);
      var st1 := RegisterIn(st, c, onStart);
      var q, second := ExecEffect(st1, rest);
      EffectsCompose(st, st1, Exec(st1, rest), p, q, first, second);
      part, added := p + q, Kept(first, q) + second;
    case Unregister(c, onStop, guarded, rest) =>
      part, added := UnregisterEffect(st, c, onStop);
      var (st1, ok) := UnregisterIn(st, c, onStop);
      if ok || guarded {
        var q, second := ExecEffect(st1, rest);
        EffectsCompose(st, st1, Exec(st1, rest), part, q, added, second);
        part, added := part + q, Kept(added, q) + second;
      }
  }
}
