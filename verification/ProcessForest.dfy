/**
 The process tree of one agent: every process is hung under its parent if that is listed,
 and becomes a root otherwise; then the lists are sorted from the roots down. The parent
 relation comes from the agent and may contain cycles.
 */
module ProcessForest {
  import opened Prelude
  import opened Sorting

  datatype Proc = Proc(ppid: Option<nat>, exe: string)

  type Table = map<nat, Proc>

  // Places a name in the order of `localeCompare`: names with the same rank compare as equal.
  type Collation = string -> real

  // The listed parent of a process; being one's own parent does not count.
  function Parent(t: Table, pid: nat): (p: Option<nat>)
    requires pid in t
    ensures p.Some? ==> p.value in t && p.value != pid
  {
    match t[pid].ppid
    case None => None
    case Some(ppid) => if ppid != pid && ppid in t then Some(ppid) else None
  }

  // The owner of the list a process is put in: its parent, or nobody.
  type Owner = Option<nat>

  function Members(t: Table, order: seq<nat>, owner: Owner): seq<nat>
    requires forall pid | pid in order :: pid in t
  {
    if order == [] then []
    else
      var n := |order| - 1;
      Members(t, order[..n], owner) + (if Parent(t, order[n]) == owner then [order[n]] else [])
  }

  // ---------- Parent chains ----------

  // The ancestor `n` steps up, if the chain goes that far.
  function Up(t: Table, pid: nat, n: nat): (p: Option<nat>)
    requires pid in t
    ensures p.Some? ==> p.value in t
    decreases n
  {
    if n == 0 then Some(pid)
    else
      match Parent(t, pid)
      case None => None
      case Some(p) => Up(t, p, n - 1)
  }

  // The parent chain ends at a root.
  ghost predicate Grounded(t: Table, pid: nat) {
    pid in t && exists n: nat :: Up(t, pid, n).None?
  }

  // `pid` lies under the owner: under a process if that is an ancestor, under nobody if
  // the chain ends.
  ghost predicate Below(t: Table, owner: Owner, pid: nat) {
    match owner
    case None => Grounded(t, pid)
    case Some(a) => pid in t && exists n: nat :: n > 0 && Up(t, pid, n) == Some(a)
  }

  ghost predicate AtOrBelow(t: Table, a: nat, pid: nat) {
    pid in t && exists n: nat :: Up(t, pid, n) == Some(a)
  }

  lemma {:induction false} UpAdds(t: Table, pid: nat, a: nat, b: nat)
    requires pid in t
    ensures Up(t, pid, a + b) == match Up(t, pid, a) { case None => None case Some(p) => Up(t, p, b) }
    decreases a
  {
    if a > 0 && Parent(t, pid).Some? {
      UpAdds(t, Parent(t, pid).value, a - 1, b);
    }
  }

  // A chain that comes back to its start never ends.
  lemma {:induction false} CyclesNeverEnd(t: Table, pid: nat, n: nat, m: nat)
    requires pid in t && n > 0 && Up(t, pid, n) == Some(pid)
    ensures Up(t, pid, m).Some?
    decreases m
  {
    if m <= n {
      UpAdds(t, pid, m, n - m);
    } else {
      UpAdds(t, pid, n, m - n);
      CyclesNeverEnd(t, pid, n, m - n);
    }
  }

  lemma GroundedIsNotBelowItself(t: Table, pid: nat)
    requires Grounded(t, pid)
    ensures !Below(t, Some(pid), pid)
  {
    if Below(t, Some(pid), pid) {
      var n: nat :| n > 0 && Up(t, pid, n) == Some(pid);
      var m: nat :| Up(t, pid, m).None?;
      CyclesNeverEnd(t, pid, n, m);
    }
  }

  // Being grounded passes up and down the parent relation.
  lemma GroundedParent(t: Table, pid: nat)
    requires pid in t && Parent(t, pid).Some?
    ensures Grounded(t, pid) <==> Grounded(t, Parent(t, pid).value)
  {
    var p := Parent(t, pid).value;
    if Grounded(t, pid) {
      var n: nat :| Up(t, pid, n).None?;
      assert Up(t, p, n - 1).None?;
    }
    if Grounded(t, p) {
      var n: nat :| Up(t, p, n).None?;
      assert Up(t, pid, n + 1).None?;
    }
  }

  // What lies under an owner is what lies at or below the members of its list.
  lemma BelowIsUnderMembers(t: Table, owner: Owner, pid: nat)
    requires pid in t
    ensures Below(t, owner, pid) <==> exists c :: c in t && Parent(t, c) == owner && AtOrBelow(t, c, pid)
  {
    if Below(t, owner, pid) {
      var n: nat :| n > 0 && Up(t, pid, n) == owner;
      var c := LastBefore(t, owner, pid, n);
      assert AtOrBelow(t, c, pid);
    }
    if c :| c in t && Parent(t, c) == owner && AtOrBelow(t, c, pid) {
      var n: nat :| Up(t, pid, n) == Some(c);
      UpAdds(t, pid, n, 1);
      assert Up(t, c, 1) == owner;
      assert Up(t, pid, n + 1) == owner;
    }
  }

  // The member of the owner's list that a chain passes through.
  lemma {:induction false} LastBefore(t: Table, owner: Owner, pid: nat, n: nat) returns (c: nat)
    requires pid in t && n > 0 && Up(t, pid, n) == owner
    ensures c in t && Parent(t, c) == owner && exists m: nat :: m < n && Up(t, pid, m) == Some(c)
    decreases n
  {
    if Parent(t, pid) == owner && (n == 1 || owner.None?) {
      c := pid;
      assert Up(t, pid, 0) == Some(pid);
    } else {
      var p := Parent(t, pid).value;
      c := LastBefore(t, owner, p, n - 1);
      var m: nat :| m < n - 1 && Up(t, p, m) == Some(c);
      assert Up(t, pid, m + 1) == Some(c);
    }
  }

  // Two members of one list have nothing under them in common.
  lemma MembersAreApart(t: Table, owner: Owner, c: nat, d: nat, pid: nat)
    requires c in t && d in t && Parent(t, c) == owner == Parent(t, d) && Grounded(t, c) && Grounded(t, d)
    requires AtOrBelow(t, c, pid) && AtOrBelow(t, d, pid)
    ensures c == d
  {
    var m: nat :| Up(t, pid, m) == Some(c);
    var n: nat :| Up(t, pid, n) == Some(d);
    if m <= n {
      UpAdds(t, pid, m, n - m);
      SiblingIsNoAncestor(t, c, d, n - m);
    } else {
      UpAdds(t, pid, n, m - n);
      SiblingIsNoAncestor(t, d, c, m - n);
    }
  }

  lemma SiblingIsNoAncestor(t: Table, c: nat, d: nat, k: nat)
    requires c in t && d in t && Parent(t, c) == Parent(t, d) && Grounded(t, d)
    requires Up(t, c, k) == Some(d)
    ensures c == d
  {
    if k > 0 {
      // The chain from the common parent comes back to it, by way of `d`.
      UpAdds(t, c, k, 1);
      var p := Parent(t, c).value;
      assert Up(t, d, 1) == Some(p);
      assert Up(t, c, k + 1) == Up(t, p, k);
      assert Below(t, Some(p), p);
      GroundedParent(t, d);
      GroundedIsNotBelowItself(t, p);
    }
  }

  // ---------- Lists of processes ----------

  // Every list that is not a root list by owner, as process numbers.
  type Lists = map<nat, seq<nat>>

  predicate Precedes(rank: Collation, t: Table, a: nat, b: nat)
    requires a in t && b in t
  {
    rank(t[a].exe) < rank(t[b].exe) || (rank(t[a].exe) == rank(t[b].exe) && a < b)
  }

  // The comparison of two nodes: by name, then by number.
  function PidOrder(rank: Collation, t: Table): Order<nat> {
    (a, b) => a in t && b in t && Precedes(rank, t, a, b)
  }

  function SortedPids(rank: Collation, t: Table, pids: seq<nat>): seq<nat> {
    StableSort(PidOrder(rank, t), pids)
  }

  // The list holds exactly the processes that belong to the owner, once each.
  ghost predicate Holds(t: Table, owner: Owner, pids: seq<nat>) {
    NoDuplicates(pids) && forall pid :: pid in pids <==> pid in t && Parent(t, pid) == owner
  }

  ghost predicate AllHold(t: Table, lists: Lists) {
    lists.Keys == t.Keys && forall p | p in t :: Holds(t, Some(p), lists[p])
  }

  // The same lists, with those of the visited processes sorted.
  ghost function SortedAt(rank: Collation, t: Table, lists: Lists, visited: seq<nat>): Lists {
    map p | p in lists :: if p in visited then SortedPids(rank, t, lists[p]) else lists[p]
  }

  lemma {:induction false} MembersHold(t: Table, order: seq<nat>, owner: Owner)
    requires NoDuplicates(order) && forall pid | pid in order :: pid in t
    ensures NoDuplicates(Members(t, order, owner))
    ensures forall pid :: pid in Members(t, order, owner) <==> pid in order && Parent(t, pid) == owner
  {
    if order != [] {
      var n := |order| - 1;
      MembersHold(t, order[..n], owner);
      assert order == order[..n] + [order[n]];
      var front := Members(t, order[..n], owner);
      forall i | 0 <= i < |front| ensures front[i] != order[n] {
        assert front[i] in front;
      }
    }
  }

  lemma PidOrderIsWeak(rank: Collation, t: Table)
    ensures WeakOrder(PidOrder(rank, t), iset p | p in t)
  {
  }

  // Sorting changes the order and nothing else.
  lemma SortedHolds(rank: Collation, t: Table, owner: Owner, pids: seq<nat>)
    requires Holds(t, owner, pids)
    ensures Holds(t, owner, SortedPids(rank, t, pids)) && Sorted(PidOrder(rank, t), SortedPids(rank, t, pids))
    ensures |SortedPids(rank, t, pids)| == |pids|
  {
    PidOrderIsWeak(rank, t);
    StableSortSorts(PidOrder(rank, t), (iset p | p in t), pids);
    var r := SortedPids(rank, t, pids);
    assert |multiset(r)| == |multiset(pids)|;
    forall pid ensures pid in r <==> pid in pids {
      assert pid in multiset(r) <==> pid in multiset(pids);
    }
    NoDuplicatesIsCounted(pids);
    NoDuplicatesIsCounted(r);
  }

  lemma {:induction false} NoDuplicatesIsCounted(pids: seq<nat>)
    ensures NoDuplicates(pids) <==> forall pid :: multiset(pids)[pid] <= 1
  {
    if pids != [] {
      var n := |pids| - 1;
      var front := pids[..n];
      NoDuplicatesIsCounted(front);
      assert pids == front + [pids[n]];
      assert multiset(pids) == multiset(front) + multiset{pids[n]};
      assert NoDuplicates(pids) <==> NoDuplicates(front) && pids[n] !in front;
      assert pids[n] in front <==> multiset(front)[pids[n]] > 0;
      if forall pid :: multiset(pids)[pid] <= 1 {
        forall pid ensures multiset(front)[pid] <= 1 {
          assert multiset(pids)[pid] >= multiset(front)[pid];
        }
        assert multiset(pids)[pids[n]] == multiset(front)[pids[n]] + 1;
      }
    }
  }

  // ---------- Visiting everything under an owner ----------

  ghost function Descendants(t: Table, owner: Owner): set<nat> {
    set pid | pid in t && Below(t, owner, pid)
  }

  // What lies at or below the first `n` members of a list.
  ghost predicate Covered(t: Table, members: seq<nat>, n: nat, pid: nat) {
    exists j :: 0 <= j < n <= |members| && members[j] in t && AtOrBelow(t, members[j], pid)
  }

  ghost predicate Visits(t: Table, members: seq<nat>, n: nat, visited: seq<nat>) {
    NoDuplicates(visited) && forall pid :: pid in visited <==> Covered(t, members, n, pid)
  }

  lemma MemberIsGrounded(t: Table, owner: Owner, c: nat)
    requires c in t && Parent(t, c) == owner && (owner.Some? ==> Grounded(t, owner.value))
    ensures Grounded(t, c)
  {
    if owner.None? {
      assert Up(t, c, 1).None?;
    } else {
      GroundedParent(t, c);
    }
  }

  lemma AtOrBelowSplits(t: Table, c: nat, pid: nat)
    requires c in t
    ensures AtOrBelow(t, c, pid) <==> pid == c || Below(t, Some(c), pid)
  {
    assert Up(t, c, 0) == Some(c);
  }

  lemma CoveredOnce(t: Table, owner: Owner, members: seq<nat>, n: nat, pid: nat)
    requires Holds(t, owner, members) && n < |members|
    requires owner.Some? ==> Grounded(t, owner.value)
    requires AtOrBelow(t, members[n], pid)
    ensures !Covered(t, members, n, pid)
  {
    assert members[n] in members;
    MemberIsGrounded(t, owner, members[n]);
    forall j | 0 <= j < n && members[j] in t && AtOrBelow(t, members[j], pid) ensures false {
      assert members[j] in members;
      MemberIsGrounded(t, owner, members[j]);
      MembersAreApart(t, owner, members[j], members[n], pid);
    }
  }

  // The next member and what lies under it have not been visited yet, and there is less of it.
  lemma MemberFacts(t: Table, owner: Owner, members: seq<nat>, n: nat, visited: seq<nat>)
    requires Holds(t, owner, members) && n < |members| && Visits(t, members, n, visited)
    requires owner.Some? ==> Grounded(t, owner.value)
    ensures members[n] in t && Grounded(t, members[n])
    ensures Descendants(t, Some(members[n])) < Descendants(t, owner)
    ensures members[n] !in visited && !Below(t, Some(members[n]), members[n])
    ensures forall pid | Below(t, Some(members[n]), pid) :: pid !in visited
  {
    var c := members[n];
    assert c in members;
    MemberIsGrounded(t, owner, c);
    GroundedIsNotBelowItself(t, c);
    AtOrBelowSplits(t, c, c);
    CoveredOnce(t, owner, members, n, c);
    BelowIsUnderMembers(t, owner, c);
    forall pid | Below(t, Some(c), pid) ensures pid !in visited && Below(t, owner, pid) {
      AtOrBelowSplits(t, c, pid);
      CoveredOnce(t, owner, members, n, pid);
      BelowIsUnderMembers(t, owner, pid);
    }
    assert c in Descendants(t, owner) && c !in Descendants(t, Some(c));
  }

  lemma VisitMore(t: Table, owner: Owner, members: seq<nat>, n: nat, visited: seq<nat>, below: seq<nat>)
    requires Holds(t, owner, members) && n < |members| && Visits(t, members, n, visited)
    requires owner.Some? ==> Grounded(t, owner.value)
    requires NoDuplicates(below) && forall pid :: pid in below <==> Below(t, Some(members[n]), pid)
    ensures Visits(t, members, n + 1, visited + [members[n]] + below)
  {
    MemberFacts(t, owner, members, n, visited);
    var c := members[n];
    forall pid ensures pid in visited + [c] + below <==> Covered(t, members, n + 1, pid) {
      AtOrBelowSplits(t, c, pid);
      if Covered(t, members, n + 1, pid) && !Covered(t, members, n, pid) {
        assert AtOrBelow(t, c, pid);
      }
      if Covered(t, members, n, pid) {
        var j :| 0 <= j < n && members[j] in t && AtOrBelow(t, members[j], pid);
        assert Covered(t, members, n + 1, pid);
      }
    }
    NoDuplicatesJoin(visited, [c]);
    NoDuplicatesJoin(visited + [c], below);
  }

  lemma NoDuplicatesJoin(a: seq<nat>, b: seq<nat>)
    requires NoDuplicates(a) && NoDuplicates(b) && forall pid | pid in b :: pid !in a
    ensures NoDuplicates(a + b)
  {
    forall i, j | 0 <= i < j < |a + b| ensures (a + b)[i] != (a + b)[j] {
      if i < |a| <= j {
        assert (a + b)[j] in b;
      }
    }
  }

  lemma VisitedAll(t: Table, owner: Owner, members: seq<nat>, visited: seq<nat>)
    requires Holds(t, owner, members) && Visits(t, members, |members|, visited)
    ensures forall pid :: pid in visited <==> Below(t, owner, pid)
  {
    forall pid ensures pid in visited <==> Below(t, owner, pid) {
      if pid in t {
        BelowIsUnderMembers(t, owner, pid);
        if c :| c in t && Parent(t, c) == owner && AtOrBelow(t, c, pid) {
          assert c in members;
          var j :| 0 <= j < |members| && members[j] == c;
          assert Covered(t, members, |members|, pid);
        }
        if Covered(t, members, |members|, pid) {
          var j :| 0 <= j < |members| && members[j] in t && AtOrBelow(t, members[j], pid);
          assert members[j] in members;
        }
      }
    }
  }

  lemma SortedAtHolds(rank: Collation, t: Table, lists: Lists, visited: seq<nat>)
    requires AllHold(t, lists)
    ensures AllHold(t, SortedAt(rank, t, lists, visited))
  {
    forall p | p in t && p in visited ensures Holds(t, Some(p), SortedPids(rank, t, lists[p])) {
      SortedHolds(rank, t, Some(p), lists[p]);
    }
  }

  lemma SortedAtMore(rank: Collation, t: Table, lists: Lists, visited: seq<nat>, c: nat, below: seq<nat>)
    requires c in lists && c !in visited && c !in below && forall pid | pid in below :: pid !in visited
    ensures
      SortedAt(rank, t, SortedAt(rank, t, lists, visited), below)[c := SortedPids(rank, t, lists[c])]
      == SortedAt(rank, t, lists, visited + [c] + below)
  {
  }

  ghost predicate VisitsUnder(t: Table, owner: Owner, visited: seq<nat>) {
    NoDuplicates(visited) && forall pid :: pid in visited <==> Below(t, owner, pid)
  }

  // The state after `i` members of a list have been dealt with: what has been visited, and
  // how the lists stand now.
  ghost predicate Progress(rank: Collation, t: Table, owner: Owner, lists: Lists, members: seq<nat>, i: nat,
                           visited: seq<nat>, now: Lists)
  {
    && AllHold(t, lists) && Holds(t, owner, members) && (owner.Some? ==> Grounded(t, owner.value))
    && i <= |members| && Visits(t, members, i, visited)
    && now == SortedAt(rank, t, lists, visited)
  }

  lemma NoMemberYet(rank: Collation, t: Table, owner: Owner, lists: Lists, members: seq<nat>)
    requires AllHold(t, lists) && Holds(t, owner, members) && (owner.Some? ==> Grounded(t, owner.value))
    ensures Progress(rank, t, owner, lists, members, 0, [], lists)
  {
  }

  lemma BeforeMember(rank: Collation, t: Table, owner: Owner, lists: Lists, members: seq<nat>, i: nat,
                     visited: seq<nat>, now: Lists)
    requires Progress(rank, t, owner, lists, members, i, visited, now) && i < |members|
    ensures members[i] in t && Grounded(t, members[i]) && AllHold(t, now)
    ensures Descendants(t, Some(members[i])) < Descendants(t, owner)
  {
    MemberFacts(t, owner, members, i, visited);
    SortedAtHolds(rank, t, lists, visited);
  }

  lemma AfterMember(rank: Collation, t: Table, owner: Owner, lists: Lists, members: seq<nat>, i: nat,
                    visited: seq<nat>, now: Lists, below: seq<nat>)
    returns (visited': seq<nat>, now': Lists)
    requires Progress(rank, t, owner, lists, members, i, visited, now) && i < |members| && members[i] in now
    requires VisitsUnder(t, Some(members[i]), below)
    ensures now' == SortedAt(rank, t, now, below)[members[i] := SortedPids(rank, t, now[members[i]])]
    ensures Progress(rank, t, owner, lists, members, i + 1, visited', now')
  {
    MemberFacts(t, owner, members, i, visited);
    SortedAtMore(rank, t, lists, visited, members[i], below);
    VisitMore(t, owner, members, i, visited, below);
    visited' := visited + [members[i]] + below;
    now' := SortedAt(rank, t, lists, visited');
  }

  lemma AfterMembers(rank: Collation, t: Table, owner: Owner, lists: Lists, members: seq<nat>, visited: seq<nat>, now: Lists)
    requires Progress(rank, t, owner, lists, members, |members|, visited, now)
    ensures VisitsUnder(t, owner, visited) && now == SortedAt(rank, t, lists, visited)
  {
    VisitedAll(t, owner, members, visited);
  }

  // ---------- What is shown ----------

  ghost predicate Acyclic(t: Table) {
    forall pid | pid in t :: !Below(t, Some(pid), pid)
  }

  // The first `n` processes of a chain.
  ghost function Chain(t: Table, pid: nat, n: nat): (chain: set<nat>)
    requires pid in t
    ensures chain <= t.Keys
  {
    set i: nat | i < n && Up(t, pid, i).Some? :: Up(t, pid, i).value
  }

  lemma ChainGrows(t: Table, pid: nat, n: nat)
    requires pid in t && Up(t, pid, n).Some?
    ensures Chain(t, pid, n + 1) == Chain(t, pid, n) + {Up(t, pid, n).value}
  {
  }

  lemma ChainDoesNotRepeat(t: Table, pid: nat, n: nat)
    requires pid in t && Acyclic(t) && Up(t, pid, n).Some?
    ensures Up(t, pid, n).value !in Chain(t, pid, n)
  {
    forall i: nat | i < n && Up(t, pid, i) == Up(t, pid, n) ensures false {
      UpAdds(t, pid, i, n - i);
    }
  }

  // A chain that neither ends nor repeats has as many processes as steps.
  lemma {:induction false} ChainSize(t: Table, pid: nat, n: nat)
    requires pid in t && Acyclic(t) && Up(t, pid, n).Some?
    ensures |Chain(t, pid, n)| == n
  {
    if n > 0 {
      UpAdds(t, pid, n - 1, 1);
      ChainSize(t, pid, n - 1);
      ChainGrows(t, pid, n - 1);
      ChainDoesNotRepeat(t, pid, n - 1);
    }
  }

  lemma SubsetSize(a: set<nat>, b: set<nat>)
    requires a <= b
    ensures |a| <= |b|
  {
    assert a + (b - a) == b;
  }

  // The sorted and rendered part covers every process exactly when no process is its own ancestor.
  lemma EverythingIsShown(t: Table)
    ensures (forall pid | pid in t :: Grounded(t, pid)) <==> Acyclic(t)
  {
    if Acyclic(t) {
      forall pid | pid in t ensures Grounded(t, pid) {
        var n := |t.Keys| + 1;
        if Up(t, pid, n).Some? {
          ChainSize(t, pid, n);
          SubsetSize(Chain(t, pid, n), t.Keys);
        }
      }
    }
    if forall pid | pid in t :: Grounded(t, pid) {
      forall pid | pid in t ensures !Below(t, Some(pid), pid) {
        GroundedIsNotBelowItself(t, pid);
      }
    }
  }

  // Two processes that name each other as parent are in no list under the roots.
  lemma CycleIsHidden()
    ensures
      var t: Table := map[1 := Proc(Some(2), ""), 2 := Proc(Some(1), "")];
      Members(t, [1, 2], None) == [] && !Grounded(t, 1) && !Grounded(t, 2)
  {
    var t: Table := map[1 := Proc(Some(2), ""), 2 := Proc(Some(1), "")];
    assert Parent(t, 1) == Some(2) && Parent(t, 2) == Some(1);
    assert [1, 2][..1] == [1] && [1][..0] == [];
    assert Members(t, [1], None) == [];
    assert Up(t, 1, 2) == Up(t, 2, 1) == Some(1) && Up(t, 2, 2) == Up(t, 1, 1) == Some(2);
    forall n: nat ensures Up(t, 1, n).Some? && Up(t, 2, n).Some? {
      CyclesNeverEnd(t, 1, 2, n);
      CyclesNeverEnd(t, 2, 2, n);
    }
  }
}
