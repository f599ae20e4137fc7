/**
 The process tree as the code builds it: linked nodes whose child lists grow by pushing and
 are sorted in place, list by list, by a recursion that must not run into a cycle.
 */
module ProcessTree {
  import opened Prelude
  import opened Sorting
  import opened ProcessForest

  class Node {
    const pid: nat
    const proc: Proc
    var children: seq<Node>

    constructor (pid: nat, proc: Proc)
      ensures this.pid == pid && this.proc == proc && children == []
    {
      this.pid, this.proc, children := pid, proc, [];
    }
  }

  type Index = map<nat, Node>

  ghost predicate Indexed(t: Table, index: Index) {
    && index.Keys == t.Keys
    && forall p | p in index :: index[p].pid == p && index[p].proc == t[p]
  }

  function Pids(nodes: seq<Node>): (pids: seq<nat>)
    ensures |pids| == |nodes|
  {
    seq(|nodes|, i requires 0 <= i < |nodes| => nodes[i].pid)
  }

  ghost predicate Known(index: Index, nodes: seq<Node>) {
    forall i | 0 <= i < |nodes| :: nodes[i].pid in index && index[nodes[i].pid] == nodes[i]
  }

  // The child lists hold nodes of this tree, and these are their numbers.
  ghost predicate Links(index: Index, lists: Lists)
    reads index.Values
  {
    && lists.Keys == index.Keys
    && forall p | p in index :: Known(index, index[p].children) && Pids(index[p].children) == lists[p]
  }

  function NodeOrder(rank: Collation): Order<Node> {
    (a: Node, b: Node) =>
      rank(a.proc.exe) < rank(b.proc.exe) || (rank(a.proc.exe) == rank(b.proc.exe) && a.pid < b.pid)
  }

  // Sorting nodes sorts their numbers.
  lemma {:induction false} InsertedNodes(rank: Collation, t: Table, index: Index, x: Node, nodes: seq<Node>)
    requires Indexed(t, index) && Known(index, [x] + nodes)
    ensures Known(index, Insert(NodeOrder(rank), x, nodes))
    ensures Pids(Insert(NodeOrder(rank), x, nodes)) == Insert(PidOrder(rank, t), x.pid, Pids(nodes))
  {
    assert ([x] + nodes)[0] == x;
    forall i | 0 <= i < |nodes| ensures nodes[i].pid in index && index[nodes[i].pid] == nodes[i] {
      assert ([x] + nodes)[i + 1] == nodes[i];
    }
    if nodes == [] {
      assert Pids([x]) == [x.pid];
    } else if NodeOrder(rank)(nodes[0], x) {
      assert Pids(nodes)[1..] == Pids(nodes[1..]);
      InsertedNodes(rank, t, index, x, nodes[1..]);
      var rest := Insert(NodeOrder(rank), x, nodes[1..]);
      assert Pids([nodes[0]] + rest) == [nodes[0].pid] + Pids(rest);
    } else {
      assert Pids([x] + nodes) == [x.pid] + Pids(nodes);
    }
  }

  lemma {:induction false} SortedNodes(rank: Collation, t: Table, index: Index, nodes: seq<Node>)
    requires Indexed(t, index) && Known(index, nodes)
    ensures Known(index, StableSort(NodeOrder(rank), nodes))
    ensures Pids(StableSort(NodeOrder(rank), nodes)) == SortedPids(rank, t, Pids(nodes))
  {
    if nodes != [] {
      SortedNodes(rank, t, index, nodes[1..]);
      InsertedNodes(rank, t, index, nodes[0], StableSort(NodeOrder(rank), nodes[1..]));
      assert Pids(nodes)[1..] == Pids(nodes[1..]);
    }
  }

  // The library sort of one list.
  method SortList(rank: Collation, nodes: seq<Node>, ghost t: Table, ghost index: Index, ghost owner: Owner) returns (sorted: seq<Node>)
    requires Indexed(t, index) && Known(index, nodes) && Holds(t, owner, Pids(nodes))
    ensures Known(index, sorted) && Pids(sorted) == SortedPids(rank, t, Pids(nodes)) && Holds(t, owner, Pids(sorted))
  {
    sorted := StableSort(NodeOrder(rank), nodes);
    SortedNodes(rank, t, index, nodes);
    SortedHolds(rank, t, owner, Pids(nodes));
  }

  method SetChildren(node: Node, children: seq<Node>, ghost t: Table, ghost index: Index, ghost lists: Lists)
    requires Indexed(t, index) && Links(index, lists) && Known(index, children)
    requires node.pid in index && index[node.pid] == node
    modifies node
    ensures Links(index, lists[node.pid := Pids(children)])
  {
    node.children := children;
  }

  // Sorts the child list of one process in place, with everything under it.
  method SortChildren(rank: Collation, node: Node, ghost t: Table, ghost index: Index, ghost lists: Lists)
    returns (ghost below: seq<nat>)
    requires Indexed(t, index) && Links(index, lists) && AllHold(t, lists)
    requires node.pid in index && index[node.pid] == node && Grounded(t, node.pid)
    modifies index.Values
    ensures Links(index, SortedAt(rank, t, lists, below)[node.pid := SortedPids(rank, t, lists[node.pid])])
    ensures VisitsUnder(t, Some(node.pid), below)
    decreases Descendants(t, Some(node.pid)), 2
  {
    var children;
    children, below := SortNodes(rank, node.children, t, index, lists, Some(node.pid));
    SetChildren(node, children, t, index, SortedAt(rank, t, lists, below));
  }

  // Sorts one list and, through it, every list under the owner. On a cyclic parent relation
  // this ends because a process whose chain ends is never among its own descendants.
  method SortNodes(rank: Collation, nodes: seq<Node>, ghost t: Table, ghost index: Index, ghost lists: Lists, ghost owner: Owner)
    returns (sorted: seq<Node>, ghost visited: seq<nat>)
    requires Indexed(t, index) && Links(index, lists) && AllHold(t, lists)
    requires Known(index, nodes) && Holds(t, owner, Pids(nodes))
    requires owner.Some? ==> Grounded(t, owner.value)
    modifies index.Values
    ensures Known(index, sorted) && Pids(sorted) == SortedPids(rank, t, Pids(nodes))
    ensures Links(index, SortedAt(rank, t, lists, visited))
    ensures VisitsUnder(t, owner, visited)
    decreases Descendants(t, owner), 1
  {
    sorted := SortList(rank, nodes, t, index, owner);
    visited := [];
    ghost var members, now := Pids(sorted), lists;
    NoMemberYet(rank, t, owner, lists, members);
    for i := 0 to |sorted|
      invariant Progress(rank, t, owner, lists, members, i, visited, now)
      invariant Links(index, now)
    {
      visited, now := SortMember(rank, sorted, i, t, index, lists, owner, visited, now);
    }
    AfterMembers(rank, t, owner, lists, members, visited, now);
  }

  // One turn of the loop over a sorted list.
  method SortMember(rank: Collation, sorted: seq<Node>, i: nat, ghost t: Table, ghost index: Index, ghost lists: Lists,
                    ghost owner: Owner, ghost visited: seq<nat>, ghost now: Lists)
    returns (ghost visited': seq<nat>, ghost now': Lists)
    requires i < |sorted| && Indexed(t, index) && Known(index, sorted) && Links(index, now)
    requires Progress(rank, t, owner, lists, Pids(sorted), i, visited, now)
    modifies index.Values
    ensures Links(index, now')
    ensures Progress(rank, t, owner, lists, Pids(sorted), i + 1, visited', now')
    decreases Descendants(t, owner), 0
  {
    BeforeMember(rank, t, owner, lists, Pids(sorted), i, visited, now);
    ghost var below := SortChildren(rank, sorted[i], t, index, now);
    visited', now' := AfterMember(rank, t, owner, lists, Pids(sorted), i, visited, now, below);
  }

  // ---------- Building the forest ----------

  // The processes of one agent as the entries of an object: no number twice.
  type Entries = seq<(nat, Proc)>

  function Keys(entries: Entries): (keys: seq<nat>)
    ensures |keys| == |entries|
  {
    seq(|entries|, i requires 0 <= i < |entries| => entries[i].0)
  }

  ghost function TableOf(entries: Entries): Table {
    if entries == [] then map[]
    else
      var n := |entries| - 1;
      TableOf(entries[..n])[entries[n].0 := entries[n].1]
  }

  lemma {:induction false} TableKeys(entries: Entries)
    ensures forall pid :: pid in TableOf(entries) <==> pid in Keys(entries)
  {
    if entries != [] {
      var n := |entries| - 1;
      TableKeys(entries[..n]);
      assert Keys(entries) == Keys(entries[..n]) + [entries[n].0];
    }
  }

  // One fresh node for every process, linked to nothing yet.
  method CreateNodes(entries: Entries) returns (nodes: Index)
    ensures Indexed(TableOf(entries), nodes)
    ensures forall p | p in nodes :: fresh(nodes[p]) && nodes[p].children == []
  {
    nodes := map[];
    for i := 0 to |entries|
      invariant Indexed(TableOf(entries[..i]), nodes)
      invariant forall p | p in nodes :: fresh(nodes[p]) && nodes[p].children == []
    {
      var node := new Node(entries[i].0, entries[i].1);
      nodes := nodes[entries[i].0 := node];
      assert entries[..i + 1][..i] == entries[..i];
    }
    assert entries[..|entries|] == entries;
  }

  ghost function MemberLists(t: Table, order: seq<nat>): Lists
    requires forall pid | pid in order :: pid in t
  {
    map p | p in t :: Members(t, order, Some(p))
  }

  // One more process joins one list and leaves the others alone.
  lemma MemberListsGrow(t: Table, order: seq<nat>, i: nat)
    requires i < |order| && forall pid | pid in order :: pid in t
    ensures order[i] in t
    ensures forall pid | pid in order[..i] || pid in order[..i + 1] :: pid in t
    ensures
      var before, after := MemberLists(t, order[..i]), MemberLists(t, order[..i + 1]);
      match Parent(t, order[i])
      case None =>
        after == before && Members(t, order[..i + 1], None) == Members(t, order[..i], None) + [order[i]]
      case Some(p) =>
        after == before[p := before[p] + [order[i]]] && Members(t, order[..i + 1], None) == Members(t, order[..i], None)
  {
    assert order[i] in order;
    var before, after := MemberLists(t, order[..i]), MemberLists(t, order[..i + 1]);
    MembersGrow(t, order, i, None);
    forall p | p in t ensures after[p] == if Parent(t, order[i]) == Some(p) then before[p] + [order[i]] else before[p] {
      MembersGrow(t, order, i, Some(p));
    }
  }

  lemma MembersGrow(t: Table, order: seq<nat>, i: nat, owner: Owner)
    requires i < |order| && forall pid | pid in order :: pid in t
    ensures order[i] in t
    ensures forall pid | pid in order[..i] || pid in order[..i + 1] :: pid in t
    ensures Members(t, order[..i + 1], owner)
         == if Parent(t, order[i]) == owner then Members(t, order[..i], owner) + [order[i]] else Members(t, order[..i], owner)
  {
    assert order[i] in order;
    assert order[..i + 1][..i] == order[..i] && order[..i + 1][i] == order[i];
  }

  // Pushes every node into the child list of its parent, or into the roots.
  method LinkNodes(entries: Entries, nodes: Index) returns (roots: seq<Node>)
    requires Indexed(TableOf(entries), nodes)
    requires forall p | p in nodes :: nodes[p].children == []
    modifies nodes.Values
    ensures (forall pid | pid in Keys(entries) :: pid in TableOf(entries))
    ensures Known(nodes, roots) && Pids(roots) == Members(TableOf(entries), Keys(entries), None)
    ensures Links(nodes, MemberLists(TableOf(entries), Keys(entries)))
  {
    ghost var t, order := TableOf(entries), Keys(entries);
    TableKeys(entries);
    roots := [];
    NothingLinked(t, order, nodes);
    for i := 0 to |entries|
      invariant LinkedSoFar(t, order, i, nodes, roots)
    {
      assert entries[i].0 == order[i] && order[i] in order;
      roots := LinkNode(roots, nodes[entries[i].0], nodes, t, order, i);
    }
    assert order[..|entries|] == order;
  }

  // The first `i` processes are in their lists.
  ghost predicate LinkedSoFar(t: Table, order: seq<nat>, i: nat, nodes: Index, roots: seq<Node>)
    requires i <= |order| && forall pid | pid in order :: pid in t
    reads nodes.Values
  {
    && Known(nodes, roots) && Pids(roots) == Members(t, order[..i], None)
    && Links(nodes, MemberLists(t, order[..i]))
  }

  lemma NothingLinked(t: Table, order: seq<nat>, nodes: Index)
    requires Indexed(t, nodes) && forall pid | pid in order :: pid in t
    requires forall p | p in nodes :: nodes[p].children == []
    ensures LinkedSoFar(t, order, 0, nodes, [])
  {
  }

  method LinkNode(roots: seq<Node>, node: Node, nodes: Index, ghost t: Table, ghost order: seq<nat>, ghost i: nat)
    returns (r: seq<Node>)
    requires Indexed(t, nodes) && i < |order| && forall pid | pid in order :: pid in t
    requires LinkedSoFar(t, order, i, nodes, roots)
    requires node.pid == order[i] && node.pid in nodes && nodes[node.pid] == node
    modifies nodes.Values
    ensures LinkedSoFar(t, order, i + 1, nodes, r)
  {
    MemberListsGrow(t, order, i);
    var parentPid := node.proc.ppid;
    if parentPid.Some? && parentPid.value != node.pid && parentPid.value in nodes {
      var parent := nodes[parentPid.value];
      PushChild(parent, node, t, nodes, MemberLists(t, order[..i]));
      return roots;
    }
    r := PushRoot(roots, node, nodes);
  }

  method PushRoot(roots: seq<Node>, node: Node, ghost index: Index) returns (r: seq<Node>)
    requires Known(index, roots) && node.pid in index && index[node.pid] == node
    ensures Known(index, r) && Pids(r) == Pids(roots) + [node.pid]
  {
    r := roots + [node];
  }

  method PushChild(parent: Node, node: Node, ghost t: Table, ghost index: Index, ghost lists: Lists)
    requires Indexed(t, index) && Links(index, lists)
    requires parent.pid in index && index[parent.pid] == parent && node.pid in index && index[node.pid] == node
    modifies parent
    ensures Links(index, lists[parent.pid := lists[parent.pid] + [node.pid]])
  {
    assert Pids(parent.children + [node]) == Pids(parent.children) + [node.pid];
    SetChildren(parent, parent.children + [node], t, index, lists);
  }

  method BuildProcessForest(rank: Collation, entries: Entries)
    returns (roots: seq<Node>, ghost nodes: Index, ghost visited: seq<nat>)
    requires NoDuplicates(Keys(entries))
    ensures (forall pid | pid in Keys(entries) :: pid in TableOf(entries))
    ensures Indexed(TableOf(entries), nodes) && Known(nodes, roots)
    ensures Pids(roots) == SortedPids(rank, TableOf(entries), Members(TableOf(entries), Keys(entries), None))
    ensures Links(nodes, SortedAt(rank, TableOf(entries), MemberLists(TableOf(entries), Keys(entries)), visited))
    ensures VisitsUnder(TableOf(entries), None, visited)
    ensures ByParent(nodes, roots) && InOrder(rank, roots)
    ensures forall p | p in visited :: p in nodes && InOrder(rank, nodes[p].children)
  {
    var index := CreateNodes(entries);
    roots := LinkNodes(entries, index);
    ghost var t, lists := TableOf(entries), MemberLists(TableOf(entries), Keys(entries));
    MemberListsHold(entries);
    ghost var unsorted := Pids(roots);
    roots, visited := SortNodes(rank, roots, t, index, lists, None);
    nodes := index;
    BuiltForest(rank, t, nodes, roots, unsorted, lists, visited);
  }

  // Hung by parent number: a root names no other listed process as its parent, and a child names
  // the process whose child it is.
  ghost predicate ByParent(nodes: Index, roots: seq<Node>)
    reads nodes.Values
  {
    && (forall p | p in nodes :: nodes[p] in roots <==> IsRoot(nodes, nodes[p].proc.ppid, p))
    && (forall p, c | p in nodes && c in nodes :: nodes[c] in nodes[p].children <==> nodes[c].proc.ppid == Some(p) && c != p)
  }

  ghost predicate IsRoot(nodes: Index, ppid: Option<nat>, p: nat) {
    ppid.None? || ppid.value == p || ppid.value !in nodes
  }

  // By the rank of the name, and where that is the same by number.
  ghost predicate InOrder(rank: Collation, list: seq<Node>) {
    forall i, j | 0 <= i < j < |list| :: ComesBefore(rank(list[i].proc.exe), list[i].pid, rank(list[j].proc.exe), list[j].pid)
  }

  predicate ComesBefore(r: real, p: nat, r': real, p': nat) {
    r < r' || (r == r' && p < p')
  }

  lemma BuiltForest(rank: Collation, t: Table, nodes: Index, roots: seq<Node>, unsorted: seq<nat>, lists: Lists, visited: seq<nat>)
    requires Indexed(t, nodes) && AllHold(t, lists) && Holds(t, None, unsorted)
    requires Known(nodes, roots) && Pids(roots) == SortedPids(rank, t, unsorted)
    requires Links(nodes, SortedAt(rank, t, lists, visited)) && VisitsUnder(t, None, visited)
    ensures ByParent(nodes, roots) && InOrder(rank, roots)
    ensures forall p | p in visited :: p in nodes && InOrder(rank, nodes[p].children)
  {
    SortedHolds(rank, t, None, unsorted);
    SortedList(rank, t, nodes, None, roots, unsorted);
    forall p | p in nodes ensures Holds(t, Some(p), Pids(nodes[p].children)) {
      SortedHolds(rank, t, Some(p), lists[p]);
    }
    HungByParent(t, nodes, roots);
    forall p | p in visited ensures p in nodes && InOrder(rank, nodes[p].children) {
      SortedList(rank, t, nodes, Some(p), nodes[p].children, lists[p]);
    }
  }

  lemma HungByParent(t: Table, nodes: Index, roots: seq<Node>)
    requires Indexed(t, nodes) && Known(nodes, roots) && Holds(t, None, Pids(roots))
    requires forall p | p in nodes :: Known(nodes, nodes[p].children) && Holds(t, Some(p), Pids(nodes[p].children))
    ensures ByParent(nodes, roots)
  {
    ListedNodes(t, nodes, None, roots);
    forall p, c | p in nodes && c in nodes
      ensures nodes[c] in nodes[p].children <==> nodes[c].proc.ppid == Some(p) && c != p
    {
      ListedNodes(t, nodes, Some(p), nodes[p].children);
    }
  }

  // The nodes of a list are those of the processes that belong to the owner.
  lemma ListedNodes(t: Table, nodes: Index, owner: Owner, list: seq<Node>)
    requires Indexed(t, nodes) && Known(nodes, list) && Holds(t, owner, Pids(list))
    ensures forall c | c in nodes :: nodes[c] in list <==> Parent(t, c) == owner
  {
    forall c | c in nodes ensures nodes[c] in list <==> c in Pids(list) {
      if c in Pids(list) {
        var i :| 0 <= i < |list| && Pids(list)[i] == c;
        assert list[i] == nodes[c];
      }
      if nodes[c] in list {
        var i :| 0 <= i < |list| && list[i] == nodes[c];
        assert Pids(list)[i] == c;
      }
    }
  }

  lemma SortedList(rank: Collation, t: Table, nodes: Index, owner: Owner, list: seq<Node>, unsorted: seq<nat>)
    requires Indexed(t, nodes) && Known(nodes, list) && Holds(t, owner, unsorted) && Pids(list) == SortedPids(rank, t, unsorted)
    ensures InOrder(rank, list)
  {
    SortedHolds(rank, t, owner, unsorted);
    var pids := Pids(list);
    forall i, j | 0 <= i < j < |list|
      ensures ComesBefore(rank(list[i].proc.exe), list[i].pid, rank(list[j].proc.exe), list[j].pid)
    {
      assert pids[i] in pids && pids[j] in pids && pids[i] != pids[j];
      assert !PidOrder(rank, t)(pids[j], pids[i]);
      assert list[i].proc == t[pids[i]] && list[j].proc == t[pids[j]];
    }
  }

  // Every process is in exactly one list, once: among the roots or under its parent.
  lemma MemberListsHold(entries: Entries)
    requires NoDuplicates(Keys(entries))
    ensures forall pid | pid in Keys(entries) :: pid in TableOf(entries)
    ensures AllHold(TableOf(entries), MemberLists(TableOf(entries), Keys(entries)))
    ensures Holds(TableOf(entries), None, Members(TableOf(entries), Keys(entries), None))
  {
    var t, order := TableOf(entries), Keys(entries);
    TableKeys(entries);
    MembersHold(t, order, None);
    forall p | p in t ensures Holds(t, Some(p), Members(t, order, Some(p))) {
      MembersHold(t, order, Some(p));
    }
  }
}
