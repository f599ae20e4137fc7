/**
 What the small tools of provisioning mean: which record a list of candidates finds, which item
 of a dictionary survives trimming, and which names a list of candidates covers.
 */
module GuacamoleLookup {
  import opened Prelude
  import opened Text
  import opened PyDict
  import opened GuacamoleModel
  import opened GuacamoleTheory

  // ---------- Finding records ----------

  // Some nonblank candidate folds like the record's identifier, its name or its key. A record that
  // gives no identifier goes by its key.
  ghost predicate Names(fold: Fold, candidates: seq<string>, key: string, identifier: string, name: string) {
    exists c | c in candidates ::
      && Clean(c) != ""
      && (fold(Clean(c)) == fold(if Clean(identifier) != "" then Clean(identifier) else Clean(key))
          || fold(Clean(c)) == fold(Clean(name)) || fold(Clean(c)) == fold(Clean(key)))
  }

  lemma {:induction false} WantedCandidates(fold: Fold, candidates: seq<string>, x: string)
    ensures x in Wanted(fold, candidates) <==> exists c | c in candidates :: Clean(c) != "" && fold(Clean(c)) == x
  {
    if candidates != [] {
      WantedCandidates(fold, candidates[1..], x);
      var first := if Clean(candidates[0]) != "" then [fold(Clean(candidates[0]))] else [];
      assert Wanted(fold, candidates) == first + Wanted(fold, candidates[1..]);
      if c :| c in candidates && Clean(c) != "" && fold(Clean(c)) == x {
        assert c == candidates[0] || c in candidates[1..];
      }
      if c :| c in candidates[1..] && Clean(c) != "" && fold(Clean(c)) == x {
        assert c in candidates;
      }
    }
  }

  lemma AnswersToItsNames(fold: Fold, candidates: seq<string>, key: string, identifier: string, name: string)
    ensures Answers(fold, Wanted(fold, candidates), key, identifier, name) <==> Names(fold, candidates, key, identifier, name)
  {
    WantedCandidates(fold, candidates, fold(ItemIdentifier(key, identifier)));
    WantedCandidates(fold, candidates, fold(Clean(name)));
    WantedCandidates(fold, candidates, fold(Clean(key)));
  }

  ghost predicate GroupNamed(fold: Fold, candidates: seq<string>, groups: Items<Group>, i: nat)
    requires i < |groups|
  {
    Names(fold, candidates, groups[i].0, groups[i].1.identifier, groups[i].1.name)
  }

  predicate GroupAnswers(fold: Fold, wanted: seq<string>, item: (string, Group)) {
    Answers(fold, wanted, item.0, item.1.identifier, item.1.name)
  }

  // A search that looks at one item after the other.
  ghost predicate Searches<V(!new)>(find: Items<V> -> (string, string), answers: ((string, V)) -> bool,
                                    show: ((string, V)) -> (string, string))
  {
    forall d: Items<V> :: find(d) == if d == [] then ("", "") else if answers(d[0]) then show(d[0]) else find(d[1..])
  }

  lemma {:induction false} FirstAnswer<V(!new)>(find: Items<V> -> (string, string), answers: ((string, V)) -> bool,
                                                show: ((string, V)) -> (string, string), d: Items<V>, i: nat)
    requires Searches(find, answers, show)
    requires i <= |d| && (i < |d| ==> answers(d[i])) && forall j | 0 <= j < i :: !answers(d[j])
    ensures find(d) == if i == |d| then ("", "") else show(d[i])
    decreases i
  {
    if i > 0 {
      assert !answers(d[0]);
      assert forall j | 0 <= j < i - 1 :: d[1..][j] == d[j + 1];
      FirstAnswer(find, answers, show, d[1..], i - 1);
    }
  }

  lemma NextGroup(fold: Fold, wanted: seq<string>, groups: Items<Group>)
    requires groups != []
    ensures ResolveGroup(fold, wanted, groups) ==
      if GroupAnswers(fold, wanted, groups[0]) then (ItemIdentifier(groups[0].0, groups[0].1.identifier), Clean(groups[0].1.name))
      else ResolveGroup(fold, wanted, groups[1..])
  {
  }

  // The answer is the first group that a candidate names, number `i`; nothing if there is none.
  lemma FirstGroupIsFound(fold: Fold, candidates: seq<string>, groups: Items<Group>, i: nat)
    requires i <= |groups| && (i < |groups| ==> GroupNamed(fold, candidates, groups, i))
    requires forall j | 0 <= j < i :: !GroupNamed(fold, candidates, groups, j)
    ensures ResolveGroup(fold, Wanted(fold, candidates), groups) ==
      if i == |groups| then ("", "")
      else (if Clean(groups[i].1.identifier) != "" then Clean(groups[i].1.identifier) else Clean(groups[i].0),
            Clean(groups[i].1.name))
  {
    forall j | 0 <= j < |groups|
      ensures GroupAnswers(fold, Wanted(fold, candidates), groups[j]) <==> GroupNamed(fold, candidates, groups, j)
    {
      AnswersToItsNames(fold, candidates, groups[j].0, groups[j].1.identifier, groups[j].1.name);
    }
    var wanted := Wanted(fold, candidates);
    var find := (d: Items<Group>) => ResolveGroup(fold, wanted, d);
    var answers := (item: (string, Group)) => GroupAnswers(fold, wanted, item);
    var show := (item: (string, Group)) => (ItemIdentifier(item.0, item.1.identifier), Clean(item.1.name));
    assert Searches(find, answers, show) by {
      forall d: Items<Group> | d != [] ensures find(d) == if answers(d[0]) then show(d[0]) else find(d[1..]) {
        NextGroup(fold, wanted, d);
      }
    }
    FirstAnswer(find, answers, show, groups, i);
  }

  // A connection counts only under the wanted parent, if one is wanted.
  ghost predicate ConnectionNamed(fold: Fold, candidates: seq<string>, parent: string, connections: Items<Connection>, i: nat)
    requires i < |connections|
  {
    && (parent == "" || Clean(connections[i].1.parent) == parent)
    && Names(fold, candidates, connections[i].0, connections[i].1.identifier, connections[i].1.name)
  }

  predicate ConnectionAnswers(fold: Fold, wanted: seq<string>, parent: string, item: (string, Connection)) {
    (parent == "" || Clean(item.1.parent) == parent) && Answers(fold, wanted, item.0, item.1.identifier, item.1.name)
  }

  lemma NextConnection(fold: Fold, wanted: seq<string>, parent: string, connections: Items<Connection>)
    requires connections != []
    ensures ResolveConnection(fold, wanted, parent, connections) ==
      if ConnectionAnswers(fold, wanted, parent, connections[0]) then
        (ItemIdentifier(connections[0].0, connections[0].1.identifier), Clean(connections[0].1.name))
      else ResolveConnection(fold, wanted, parent, connections[1..])
  {
  }

  lemma FirstConnectionIsFound(fold: Fold, candidates: seq<string>, parent: string, connections: Items<Connection>, i: nat)
    requires i <= |connections| && (i < |connections| ==> ConnectionNamed(fold, candidates, parent, connections, i))
    requires forall j | 0 <= j < i :: !ConnectionNamed(fold, candidates, parent, connections, j)
    ensures ResolveConnection(fold, Wanted(fold, candidates), parent, connections) ==
      if i == |connections| then ("", "")
      else (if Clean(connections[i].1.identifier) != "" then Clean(connections[i].1.identifier) else Clean(connections[i].0),
            Clean(connections[i].1.name))
  {
    forall j | 0 <= j < |connections|
      ensures ConnectionAnswers(fold, Wanted(fold, candidates), parent, connections[j])
        <==> ConnectionNamed(fold, candidates, parent, connections, j)
    {
      AnswersToItsNames(fold, candidates, connections[j].0, connections[j].1.identifier, connections[j].1.name);
    }
    var wanted := Wanted(fold, candidates);
    var find := (d: Items<Connection>) => ResolveConnection(fold, wanted, parent, d);
    var answers := (item: (string, Connection)) => ConnectionAnswers(fold, wanted, parent, item);
    var show := (item: (string, Connection)) => (ItemIdentifier(item.0, item.1.identifier), Clean(item.1.name));
    assert Searches(find, answers, show) by {
      forall d: Items<Connection> | d != [] ensures find(d) == if answers(d[0]) then show(d[0]) else find(d[1..]) {
        NextConnection(fold, wanted, parent, d);
      }
    }
    FirstAnswer(find, answers, show, connections, i);
  }

  // ---------- Trimmed dictionaries ----------

  // No item counts for key `k`: a key counts once trimmed, and where blank values are dropped an
  // item with a blank value does not count.
  ghost predicate Without(d: Params, k: string, blanks: bool) {
    forall item | item in d :: Clean(item.0) != k || (!blanks && Clean(item.1) == "")
  }

  // Item `i` is the last one that counts.
  ghost predicate IsLast(d: Params, k: string, blanks: bool, i: nat)
    requires i < |d|
  {
    Clean(d[i].0) == k && (blanks || Clean(d[i].1) != "") && Without(d[i + 1..], k, blanks)
  }

  lemma {:induction false} NormalizeWithout(acc: Params, d: Params, k: string)
    requires Without(d, k, false)
    ensures Lookup(ToMap(NormalizeInto(acc, d)), k) == Lookup(ToMap(acc), k)
    decreases d
  {
    if d != [] {
      assert d[0] in d;
      PutUpdates(acc, Clean(d[0].0), Clean(d[0].1));
      var counts := Clean(d[0].0) != "" && Clean(d[0].1) != "";
      NormalizeWithout(if counts then Put(acc, Clean(d[0].0), Clean(d[0].1)) else acc, d[1..], k);
    }
  }

  lemma {:induction false} CleanWithout(acc: Params, d: Params, k: string)
    requires Without(d, k, true)
    ensures Lookup(ToMap(CleanInto(acc, d)), k) == Lookup(ToMap(acc), k)
    decreases d
  {
    if d != [] {
      assert d[0] in d;
      PutUpdates(acc, Clean(d[0].0), Clean(d[0].1));
      CleanWithout(if Clean(d[0].0) != "" then Put(acc, Clean(d[0].0), Clean(d[0].1)) else acc, d[1..], k);
    }
  }

  lemma {:induction false} NormalizeLast(acc: Params, d: Params, k: string, i: nat)
    requires k != "" && i < |d| && IsLast(d, k, false, i)
    ensures Lookup(ToMap(NormalizeInto(acc, d)), k) == Some(Clean(d[i].1))
    decreases d
  {
    var counts := Clean(d[0].0) != "" && Clean(d[0].1) != "";
    var acc' := if counts then Put(acc, Clean(d[0].0), Clean(d[0].1)) else acc;
    PutUpdates(acc, Clean(d[0].0), Clean(d[0].1));
    if i == 0 {
      NormalizeWithout(acc', d[1..], k);
    } else {
      assert d[1..][i..] == d[i + 1..];
      NormalizeLast(acc', d[1..], k, i - 1);
    }
  }

  lemma {:induction false} CleanLast(acc: Params, d: Params, k: string, i: nat)
    requires k != "" && i < |d| && IsLast(d, k, true, i)
    ensures Lookup(ToMap(CleanInto(acc, d)), k) == Some(Clean(d[i].1))
    decreases d
  {
    var acc' := if Clean(d[0].0) != "" then Put(acc, Clean(d[0].0), Clean(d[0].1)) else acc;
    PutUpdates(acc, Clean(d[0].0), Clean(d[0].1));
    if i == 0 {
      CleanWithout(acc', d[1..], k);
    } else {
      assert d[1..][i..] == d[i + 1..];
      CleanLast(acc', d[1..], k, i - 1);
    }
  }

  // Of several items whose keys differ only in whitespace the last one counts, with its value
  // trimmed. Downloaded parameters keep blank values, normalised dictionaries pass over them.
  lemma LastItemCounts(d: Params, k: string)
    requires k != ""
    ensures Without(d, k, false) ==> k !in ToMap(Normalize(d))
    ensures forall i | 0 <= i < |d| && IsLast(d, k, false, i) :: Lookup(ToMap(Normalize(d)), k) == Some(Clean(d[i].1))
    ensures Without(d, k, true) ==> k !in ToMap(CleanParameters(d))
    ensures forall i | 0 <= i < |d| && IsLast(d, k, true, i) :: Lookup(ToMap(CleanParameters(d)), k) == Some(Clean(d[i].1))
  {
    if Without(d, k, false) {
      NormalizeWithout([], d, k);
      assert Lookup(ToMap(Normalize(d)), k) == None;
    }
    if Without(d, k, true) {
      CleanWithout([], d, k);
      assert Lookup(ToMap(CleanParameters(d)), k) == None;
    }
    forall i | 0 <= i < |d| && IsLast(d, k, false, i) ensures Lookup(ToMap(Normalize(d)), k) == Some(Clean(d[i].1)) {
      NormalizeLast([], d, k, i);
    }
    forall i | 0 <= i < |d| && IsLast(d, k, true, i) ensures Lookup(ToMap(CleanParameters(d)), k) == Some(Clean(d[i].1)) {
      CleanLast([], d, k, i);
    }
  }

  // ---------- Candidate lists ----------

  // Up to case the list covers `v`, unless that is blank.
  ghost predicate Covers(fold: Fold, candidates: seq<string>, v: string) {
    Clean(v) == "" || exists c | c in candidates :: fold(c) == fold(Clean(v))
  }

  // After a run the candidates cover everything that was a candidate, the names under which the
  // records are now known, and agent and host.
  lemma CandidatesCoverTheTarget(fold: Fold, req: Request, m: Mapping)
    ensures
      var out := WithCandidates(fold, req, m);
      && (forall v | v in m.groupCandidates || v in {m.groupName, req.agentId} :: Covers(fold, out.groupCandidates, v))
      && (forall v | v in m.connectionCandidates || v in {m.connectionIdentifier, m.connectionName, req.hostname, req.agentId} ::
            Covers(fold, out.connectionCandidates, v))
  {
    var groups := m.groupCandidates + [m.groupName, req.agentId];
    var connections := m.connectionCandidates + [m.connectionIdentifier, m.connectionName, req.hostname, req.agentId];
    AllCovered(fold, groups);
    AllCovered(fold, connections);
  }

  lemma AllCovered(fold: Fold, values: seq<string>)
    ensures forall v | v in values :: Covers(fold, UniqueStrings(fold, values), v)
  {
    assert Folds(fold, []) == {};
    UniqueIntoIsUnique(fold, [], {}, values);
    var r := UniqueStrings(fold, values);
    forall v | v in values ensures Covers(fold, r, v) {
      assert Known(fold, v, Folds(fold, r));
      if Clean(v) != "" {
        var i :| 0 <= i < |r| && fold(r[i]) == fold(Clean(v));
        assert r[i] in r;
      }
    }
  }

  // Every entry of the result is the trimmed form of some value; what comes first stays first.
  lemma {:induction false} OnlyGivenValues(fold: Fold, acc: seq<string>, seen: set<string>, values: seq<string>)
    ensures
      var r := UniqueInto(fold, acc, seen, values);
      acc <= r && forall x | x in r[|acc|..] :: exists v | v in values :: Clean(v) == x
    decreases values
  {
    if values != [] {
      var v := Clean(values[0]);
      var isNew := v != "" && fold(v) !in seen;
      var acc' := if isNew then acc + [v] else acc;
      OnlyGivenValues(fold, acc', if isNew then seen + {fold(v)} else seen, values[1..]);
      var r := UniqueInto(fold, acc, seen, values);
      assert values[0] in values;
      forall x | x in r[|acc|..] ensures exists w | w in values :: Clean(w) == x {
        if x !in r[|acc'|..] {
          assert isNew && x == v;
        } else {
          var w :| w in values[1..] && Clean(w) == x;
          assert w in values;
        }
      }
    }
  }
}
