/**
 The user sessions of an agent as the Guacamole bridge lists them: which ones are eligible,
 whose user name is preferred, and in which order they are shown. Case folding is arbitrary.
 */
module UserSessions {
  import opened Prelude
  import opened Text
  import opened PyDict
  import opened Sorting

  // What one entry of the agent state holds: a session, or something else.
  datatype Entry =
    | Session(username: string, status: string, kind: string, name: string, id: int, processes: int)
    | Other

  datatype Listed = Listed(
    key: string, id: int, name: string, username: string, status: string, kind: string,
    processes: int, preferred: bool, active: bool)

  type Fold = string -> string

  const NAMELESS: set<string> := {"unknown", "system", "nt authority\\system"}

  predicate Eligible(fold: Fold, key: string, e: Entry) {
    && !("__" <= key)
    && e.Session?
    && Clean(e.username) != ""
    && fold(Clean(e.username)) !in NAMELESS
  }

  predicate EligibleAt(fold: Fold, state: Items<Entry>, i: nat) {
    i < |state| && Eligible(fold, state[i].0, state[i].1)
  }

  // ---------- The preferred user name ----------

  type Score = (int, int, int)

  const NO_SCORE: Score := (-1, -1, -1)

  predicate Better(a: Score, b: Score) {
    a.0 > b.0 || (a.0 == b.0 && (a.1 > b.1 || (a.1 == b.1 && a.2 > b.2)))
  }

  function ScoreOf(fold: Fold, e: Entry): (score: Score)
    requires e.Session?
    ensures Better(score, NO_SCORE)
  {
    var status, kind := fold(Clean(e.status)), fold(Clean(e.kind));
    (if status == "active" then 2 else if status == "connected" || status == "up" then 1 else 0,
     if kind == "interactive" || kind == "user_session" then 1 else 0,
     if e.id > 0 then 1 else 0)
  }

  // The scores of the eligible entries, entry by entry.
  function Scores(fold: Fold, state: Items<Entry>): (scores: seq<Option<Score>>)
    ensures |scores| == |state|
  {
    seq(|state|, i requires 0 <= i < |state| =>
      if Eligible(fold, state[i].0, state[i].1) then Some(ScoreOf(fold, state[i].1)) else None)
  }

  // The first score that no score beats.
  ghost predicate FirstBest(scores: seq<Option<Score>>, i: nat) {
    && i < |scores| && scores[i].Some?
    && (forall j | 0 <= j < |scores| && scores[j].Some? :: !Better(scores[j].value, scores[i].value))
    && (forall j | 0 <= j < i && scores[j].Some? :: Better(scores[i].value, scores[j].value))
  }

  ghost predicate NoScore(scores: seq<Option<Score>>) {
    forall j | 0 <= j < |scores| :: scores[j].None?
  }

  // `username` is what the first best session says, or "" when no session is eligible.
  ghost predicate IsPreferred(fold: Fold, state: Items<Entry>, username: string) {
    var scores := Scores(fold, state);
    || (exists i: nat :: FirstBest(scores, i) && username == Clean(state[i].1.username))
    || (NoScore(scores) && username == "")
  }

  // One more entry changes the first best score only when it beats it.
  lemma OneMore(scores: seq<Option<Score>>, i: nat, next: Option<Score>)
    requires FirstBest(scores, i)
    ensures FirstBest(scores + [next], if next.Some? && Better(next.value, scores[i].value) then |scores| else i)
  {
  }

  lemma FirstOne(scores: seq<Option<Score>>, next: Score)
    requires NoScore(scores)
    ensures FirstBest(scores + [Some(next)], |scores|)
  {
  }

  method ExtractPreferredSessionUsername(fold: Fold, state: Items<Entry>) returns (best: string)
    ensures IsPreferred(fold, state, best)
  {
    best := "";
    var bestScore := NO_SCORE;
    ghost var scores, at := Scores(fold, state), 0 as nat;
    for i := 0 to |state|
      invariant bestScore == NO_SCORE ==> best == "" && NoScore(scores[..i])
      invariant bestScore != NO_SCORE ==>
        FirstBest(scores[..i], at) && scores[at] == Some(bestScore) && best == Clean(state[at].1.username)
    {
      assert scores[..i + 1] == scores[..i] + [scores[i]];
      var (key, e) := state[i];
      if bestScore != NO_SCORE {
        OneMore(scores[..i], at, scores[i]);
      } else if scores[i].Some? {
        FirstOne(scores[..i], scores[i].value);
      }
      if !Eligible(fold, key, e) {
        continue;
      }
      var score := ScoreOf(fold, e);
      if Better(score, bestScore) {
        bestScore, best, at := score, Clean(e.username), i;
      }
    }
    assert scores[..|state|] == scores;
  }

  // There is only one such user name, and it is empty only when no session is eligible.
  lemma PreferredIsUnique(fold: Fold, state: Items<Entry>, a: string, b: string)
    requires IsPreferred(fold, state, a) && IsPreferred(fold, state, b)
    ensures a == b
    ensures a == "" <==> forall i: nat :: !EligibleAt(fold, state, i)
  {
    var scores := Scores(fold, state);
    forall i: nat, j: nat | FirstBest(scores, i) && FirstBest(scores, j) ensures i == j {
      OnlyOneIsFirst(scores, i, j);
    }
    forall i: nat | i < |state| ensures scores[i].Some? <==> EligibleAt(fold, state, i) {}
  }

  lemma OnlyOneIsFirst(scores: seq<Option<Score>>, i: nat, j: nat)
    requires FirstBest(scores, i) && FirstBest(scores, j)
    ensures i == j
  {
  }

  predicate IsActive(fold: Fold, e: Entry) {
    e.Session? && fold(Clean(e.status)) == "active"
  }

  predicate IsUp(fold: Fold, e: Entry) {
    e.Session? && fold(Clean(e.status)) in {"connected", "up"}
  }

  predicate IsInteractive(fold: Fold, e: Entry) {
    e.Session? && fold(Clean(e.kind)) in {"interactive", "user_session"}
  }

  predicate SameStatus(fold: Fold, a: Entry, b: Entry) {
    IsActive(fold, a) == IsActive(fold, b) && IsUp(fold, a) == IsUp(fold, b)
  }

  // `b` is no reason to pass `a` over: an active session comes first, then one that is up, then an
  // interactive one, then one with a positive id.
  predicate Holds(fold: Fold, a: Entry, b: Entry)
    requires a.Session? && b.Session?
  {
    && (IsActive(fold, b) ==> IsActive(fold, a))
    && (IsUp(fold, b) ==> IsActive(fold, a) || IsUp(fold, a))
    && (SameStatus(fold, a, b) && IsInteractive(fold, b) ==> IsInteractive(fold, a))
    && (SameStatus(fold, a, b) && IsInteractive(fold, a) == IsInteractive(fold, b) && b.id > 0 ==> a.id > 0)
  }

  lemma UnbeatenHolds(fold: Fold, a: Entry, b: Entry)
    requires a.Session? && b.Session?
    ensures !Better(ScoreOf(fold, b), ScoreOf(fold, a)) <==> Holds(fold, a, b)
  {
  }

  // A user name that can be preferred: given, and none of the three that stand for nobody.
  predicate IsUser(fold: Fold, key: string, e: Entry) {
    && !("__" <= key) && e.Session? && Clean(e.username) != ""
    && fold(Clean(e.username)) != "unknown" && fold(Clean(e.username)) != "system"
    && fold(Clean(e.username)) != "nt authority\\system"
  }

  // The preferred name is that of the first session which holds against every other.
  lemma PreferredHolds(fold: Fold, state: Items<Entry>, username: string) returns (i: nat)
    requires IsPreferred(fold, state, username) && username != ""
    ensures i < |state| && IsUser(fold, state[i].0, state[i].1) && username == Clean(state[i].1.username)
    ensures forall j | 0 <= j < |state| && IsUser(fold, state[j].0, state[j].1) :: Holds(fold, state[i].1, state[j].1)
    ensures forall j | 0 <= j < i && IsUser(fold, state[j].0, state[j].1) :: !Holds(fold, state[j].1, state[i].1)
  {
    var scores := Scores(fold, state);
    i :| FirstBest(scores, i) && username == Clean(state[i].1.username);
    EligibleIsUser(fold, state[i].0, state[i].1);
    forall j | 0 <= j < |state| && IsUser(fold, state[j].0, state[j].1)
      ensures Holds(fold, state[i].1, state[j].1) && (j < i ==> !Holds(fold, state[j].1, state[i].1))
    {
      FirstBestHolds(fold, state, i, j);
    }
  }

  lemma EligibleIsUser(fold: Fold, key: string, e: Entry)
    ensures Eligible(fold, key, e) <==> IsUser(fold, key, e)
  {
  }

  lemma FirstBestHolds(fold: Fold, state: Items<Entry>, i: nat, j: nat)
    requires i < |state| && j < |state| && FirstBest(Scores(fold, state), i) && IsUser(fold, state[j].0, state[j].1)
    ensures state[i].1.Session? && Holds(fold, state[i].1, state[j].1)
    ensures j < i ==> !Holds(fold, state[j].1, state[i].1)
  {
    EligibleIsUser(fold, state[j].0, state[j].1);
    UnbeatenHolds(fold, state[i].1, state[j].1);
    UnbeatenHolds(fold, state[j].1, state[i].1);
    var scores := Scores(fold, state);
    assert scores[j].Some? && !Better(scores[j].value, scores[i].value);
    assert j < i ==> Better(scores[i].value, scores[j].value);
  }

  // ---------- The list ----------

  function Row(fold: Fold, preferred: string, key: string, e: Entry): Listed
    requires e.Session?
  {
    var status := Or(Clean(e.status), "Unknown");
    Listed(key, e.id, Or(Clean(e.name), key), Clean(e.username), status, Or(Clean(e.kind), "user_session"), e.processes,
           Clean(e.username) == preferred, fold(status) == "active")
  }

  function RowsFor(fold: Fold, preferred: string, key: string, e: Entry): seq<Listed> {
    if Eligible(fold, key, e) then [Row(fold, preferred, key, e)] else []
  }

  // The eligible sessions in the order of the agent state.
  function Rows(fold: Fold, preferred: string, state: Items<Entry>): seq<Listed> {
    if state == [] then []
    else
      var n := |state| - 1;
      Rows(fold, preferred, state[..n]) + RowsFor(fold, preferred, state[n].0, state[n].1)
  }

  method CollectSessions(fold: Fold, preferred: string, state: Items<Entry>) returns (rows: seq<Listed>)
    ensures rows == Rows(fold, preferred, state)
  {
    rows := [];
    for i := 0 to |state|
      invariant rows == Rows(fold, preferred, state[..i])
    {
      assert state[..i + 1][..i] == state[..i];
      var (key, e) := state[i];
      if Eligible(fold, key, e) {
        rows := rows + [Row(fold, preferred, key, e)];
      }
    }
    assert state[..|state|] == state;
  }

  predicate TextBefore(a: string, b: string) {
    b != [] && (a == [] || a[0] < b[0] || (a[0] == b[0] && TextBefore(a[1..], b[1..])))
  }

  // Strict order of the sort keys.
  predicate Before(fold: Fold, a: Listed, b: Listed) {
    if a.preferred != b.preferred then a.preferred
    else if a.active != b.active then a.active
    else if fold(a.username) != fold(b.username) then TextBefore(fold(a.username), fold(b.username))
    else a.id < b.id
  }

  lemma {:induction false} TextOrder(a: string, b: string, c: string)
    ensures !TextBefore(a, a)
    ensures TextBefore(a, b) && TextBefore(b, c) ==> TextBefore(a, c)
    ensures a != b ==> TextBefore(a, b) != TextBefore(b, a)
  {
    if a != [] && b != [] && c != [] {
      TextOrder(a[1..], b[1..], c[1..]);
      assert a == [a[0]] + a[1..] && b == [b[0]] + b[1..];
    } else if a != [] && b != [] {
      TextOrder(a[1..], b[1..], a[1..]);
      assert a == [a[0]] + a[1..] && b == [b[0]] + b[1..];
    } else if a != [] {
      TextOrder(a[1..], a[1..], a[1..]);
    }
  }

  ghost const ALL: iset<Listed> := iset row: Listed | true

  function ListOrder(fold: Fold): Order<Listed> {
    (a, b) => Before(fold, a, b)
  }

  // The keys are compared by a strict weak order, so that sorting is meaningful.
  lemma ListOrderIsWeak(fold: Fold)
    ensures WeakOrder(ListOrder(fold), ALL)
  {
    forall a: Listed, b: Listed | Before(fold, a, b) ensures !Before(fold, b, a) {
      TextOrder(fold(a.username), fold(b.username), fold(a.username));
    }
    forall a: Listed, b: Listed, c: Listed | !Before(fold, a, b) && !Before(fold, b, c) ensures !Before(fold, a, c) {
      TextOrder(fold(c.username), fold(b.username), fold(a.username));
      TextOrder(fold(a.username), fold(c.username), fold(b.username));
      TextOrder(fold(b.username), fold(a.username), fold(c.username));
    }
  }

  method ListVmUserSessions(fold: Fold, state: Items<Entry>) returns (sessions: seq<Listed>, ghost preferred: string)
    ensures IsPreferred(fold, state, preferred)
    ensures multiset(sessions) == multiset(Rows(fold, preferred, state))
    ensures Sorted(ListOrder(fold), sessions)
    ensures forall k :: Ties(ListOrder(fold), k, sessions) == Ties(ListOrder(fold), k, Rows(fold, preferred, state))
    ensures sessions != [] ==> sessions[0].preferred
  {
    var best := ExtractPreferredSessionUsername(fold, state);
    var rows := CollectSessions(fold, best, state);
    sessions, preferred := StableSort(ListOrder(fold), rows), best;
    ListOrderIsWeak(fold);
    forall k ensures Ties(ListOrder(fold), k, sessions) == Ties(ListOrder(fold), k, rows) {
      StableSortIsStable(ListOrder(fold), ALL, rows, k);
    }
    StableSortSorts(ListOrder(fold), ALL, rows);
    HeadIsPreferred(fold, best, state, sessions);
  }

  // Some row is preferred, if there is any row.
  lemma PreferredRow(fold: Fold, preferred: string, state: Items<Entry>) returns (row: Listed)
    requires IsPreferred(fold, state, preferred) && Rows(fold, preferred, state) != []
    ensures row in Rows(fold, preferred, state) && row.preferred
  {
    RowsAreEligible(fold, preferred, state, Rows(fold, preferred, state)[0]);
    var some: nat :| RowAt(fold, preferred, state, some, Rows(fold, preferred, state)[0]);
    assert Scores(fold, state)[some].Some?;
    var i: nat :| FirstBest(Scores(fold, state), i) && preferred == Clean(state[i].1.username);
    row := Row(fold, preferred, state[i].0, state[i].1);
    assert RowAt(fold, preferred, state, i, row);
    RowsAreEligible(fold, preferred, state, row);
  }

  // Any sorted permutation of the rows starts with a preferred session.
  lemma HeadIsPreferred(fold: Fold, preferred: string, state: Items<Entry>, sessions: seq<Listed>)
    requires IsPreferred(fold, state, preferred)
    requires Sorted(ListOrder(fold), sessions) && multiset(sessions) == multiset(Rows(fold, preferred, state))
    ensures sessions != [] ==> sessions[0].preferred
  {
    if sessions != [] {
      assert |Rows(fold, preferred, state)| == |multiset(sessions)|;
      var row := PreferredRow(fold, preferred, state);
      assert row in multiset(sessions);
    }
  }

  // The list is in order: the preferred user first, then active sessions, then by folded user name
  // in dictionary order, then by id.
  lemma ListIsInOrder(fold: Fold, sessions: seq<Listed>, i: nat, j: nat)
    requires Sorted(ListOrder(fold), sessions) && i < j < |sessions|
    ensures
      var (a, b) := (sessions[i], sessions[j]);
      && (b.preferred ==> a.preferred)
      && (a.preferred == b.preferred ==>
            && (b.active ==> a.active)
            && (a.active == b.active ==>
                  && !Precedes(fold(b.username), fold(a.username))
                  && (fold(a.username) == fold(b.username) ==> a.id <= b.id)))
  {
    var a, b := sessions[i], sessions[j];
    assert !ListOrder(fold)(b, a);
    if Precedes(fold(b.username), fold(a.username)) {
      DictionaryOrder(fold(b.username), fold(a.username));
    }
  }

  // Dictionary order: at the first difference the smaller letter, or the end, comes first.
  ghost predicate Precedes(a: string, b: string) {
    exists k: nat :: DiffersFirstAt(a, b, k)
  }

  ghost predicate DiffersFirstAt(a: string, b: string, k: nat) {
    && k <= |a| && k < |b| && (forall j | 0 <= j < k :: a[j] == b[j])
    && (k == |a| || a[k] < b[k])
  }

  lemma {:induction false} DictionaryOrder(a: string, b: string)
    ensures TextBefore(a, b) <==> Precedes(a, b)
  {
    if a != [] && b != [] && a[0] == b[0] {
      DictionaryOrder(a[1..], b[1..]);
      assert a == [a[0]] + a[1..] && b == [b[0]] + b[1..];
      if k: nat :| DiffersFirstAt(a[1..], b[1..], k) {
        assert forall j | 0 < j < k + 1 :: a[j] == a[1..][j - 1] && b[j] == b[1..][j - 1];
        assert DiffersFirstAt(a, b, k + 1);
      }
      if k: nat :| DiffersFirstAt(a, b, k) {
        assert k > 0;
        assert forall j | 0 <= j < k - 1 :: a[1..][j] == a[j + 1] && b[1..][j] == b[j + 1];
        assert DiffersFirstAt(a[1..], b[1..], k - 1);
      }
    } else if TextBefore(a, b) {
      assert DiffersFirstAt(a, b, 0);
    } else {
      forall k: nat ensures !DiffersFirstAt(a, b, k) {}
    }
  }

  // What a row says of its session.
  lemma RowsShowTheirSessions(fold: Fold, preferred: string, state: Items<Entry>, i: nat, row: Listed)
    requires RowAt(fold, preferred, state, i, row)
    ensures
      var (key, e) := state[i];
      && IsUser(fold, key, e) && row.key == key && row.id == e.id && row.processes == e.processes
      && row.username == Clean(e.username) && (row.preferred <==> Clean(e.username) == preferred)
      && row.status == (if Clean(e.status) != "" then Clean(e.status) else "Unknown")
      && row.kind == (if Clean(e.kind) != "" then Clean(e.kind) else "user_session")
      && row.name == (if Clean(e.name) != "" then Clean(e.name) else key)
      && (row.active <==> fold(row.status) == "active")
  {
  }

  // `row` is shown for entry `i`.
  ghost predicate RowAt(fold: Fold, preferred: string, state: Items<Entry>, i: nat, row: Listed) {
    i < |state| && row in RowsFor(fold, preferred, state[i].0, state[i].1)
  }

  // The rows are exactly those of the eligible sessions.
  lemma {:induction false} RowsAreEligible(fold: Fold, preferred: string, state: Items<Entry>, row: Listed)
    ensures row in Rows(fold, preferred, state) <==> exists i: nat :: RowAt(fold, preferred, state, i, row)
  {
    if state != [] {
      var n := |state| - 1;
      var front := state[..n];
      RowsAreEligible(fold, preferred, front, row);
      forall i: nat | i < n ensures RowAt(fold, preferred, front, i, row) == RowAt(fold, preferred, state, i, row) {
        assert front[i] == state[i];
      }
      LastRows(fold, preferred, state, row);
      if i: nat :| RowAt(fold, preferred, state, i, row) {
        assert i == n || RowAt(fold, preferred, front, i, row);
      }
      if i: nat :| RowAt(fold, preferred, front, i, row) {
        assert RowAt(fold, preferred, state, i, row);
      }
    }
  }

  lemma LastRows(fold: Fold, preferred: string, state: Items<Entry>, row: Listed)
    requires state != []
    ensures row in Rows(fold, preferred, state) <==>
      || row in Rows(fold, preferred, state[..|state| - 1])
      || RowAt(fold, preferred, state, |state| - 1, row)
  {
  }
}
