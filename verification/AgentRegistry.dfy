/**
 The browser's picture of all agents: live snapshots from the server, reconciled with the
 registry of known agents. Ids are trimmed; values follow JavaScript's notions of truth.
 */
module AgentRegistry {
  import opened Prelude
  import opened JsonValues
  import opened Text

  // An agent as shown: what it measures, how it is connected, and its sessions.
  datatype AgentState = AgentState(metrics: Option<Record>, connection: Option<Record>, sessions: Record)

  type Agents = map<string, AgentState>

  datatype Row = Row(id: string, hostname: string, displayName: string, status: string, lastSeen: Json)

  const RUNTIME: Json := Str("runtime")
  const REGISTRY: Json := Str("registry")

  predicate JsTruthy(v: Json) {
    match v
    case Arr(_) => true
    case Obj(_) => true
    case _ => Truthy(v)
  }

  predicate HasTruthy(r: Record, key: string) {
    key in r && JsTruthy(r[key])
  }

  predicate IsNumber(v: Json) {
    v.Int? || v.Real?
  }

  function RowId(row: Row): string {
    Trim(IsJsSpace, row.id)
  }

  function RowHostname(row: Row): string {
    Trim(IsJsSpace, Or(row.hostname, row.displayName))
  }

  function Ids(rows: seq<Row>): set<string> {
    set row | row in rows && RowId(row) != "" :: RowId(row)
  }

  // ---------- Specification ----------

  function MergeMetrics(m: Record, row: Row): Record {
    if !HasTruthy(m, "hostname") && RowHostname(row) != "" then m["hostname" := Str(RowHostname(row))] else m
  }

  function MergeConnected(c: Record, row: Row): Record {
    if "connected" in c && c["connected"].Bool? then c else c["connected" := Bool(row.status == "online")]
  }

  function MergeLastSeen(c: Record, row: Row): Record {
    if !("last_seen" in c && IsNumber(c["last_seen"])) && IsNumber(row.lastSeen) then c["last_seen" := row.lastSeen] else c
  }

  function MergeSource(c: Record): Record {
    if HasTruthy(c, "source") then c else c["source" := REGISTRY]
  }

  function MergeEntry(e: AgentState, row: Row): AgentState {
    var metrics := MergeMetrics(e.metrics.GetOr(map[]), row);
    var connection := MergeSource(MergeLastSeen(MergeConnected(e.connection.GetOr(map[]), row), row));
    e.(metrics := if metrics != map[] then Some(metrics) else e.metrics, connection := Some(connection))
  }

  const NOBODY := AgentState(None, None, map[])

  function MergeRow(agents: Agents, row: Row): Agents {
    var id := RowId(row);
    if id == "" then agents else agents[id := MergeEntry(Lookup(agents, id).GetOr(NOBODY), row)]
  }

  function MergeRows(agents: Agents, rows: seq<Row>): Agents
    decreases rows
  {
    if rows == [] then agents else MergeRows(MergeRow(agents, rows[0]), rows[1..])
  }

  function SourceOf(e: AgentState): Json {
    GetField(e.connection.GetOr(map[]), "source", Null)
  }

  function WithoutStale(agents: Agents, rows: seq<Row>): Agents {
    map id | id in agents && (id in Ids(rows) || SourceOf(agents[id]) != REGISTRY) :: agents[id]
  }

  function Reconciled(agents: Agents, rows: seq<Row>): Agents {
    WithoutStale(MergeRows(agents, rows), rows)
  }

  function Marked(snapshot: Agents): Agents {
    map id | id in snapshot ::
      snapshot[id].(connection := Some(snapshot[id].connection.GetOr(map[])["source" := RUNTIME]))
  }

  // When the socket closes: sessions go, and whoever had a connection record is shown as disconnected.
  function Stripped(agents: Agents): Agents {
    map id | id in agents ::
      AgentState(
        agents[id].metrics,
        match agents[id].connection { case None => None case Some(c) => Some(c["connected" := Bool(false)]) },
        map[])
  }

  // ---------- The code ----------

  // An object holding the agents: the same one may be returned that was passed in.
  class AgentsMap {
    var entries: Agents

    constructor (entries: Agents)
      ensures this.entries == entries
    {
      this.entries := entries;
    }
  }

  method MergeRegistryAgents(agents: AgentsMap, rows: seq<Row>) returns (merged: AgentsMap)
    ensures merged.entries == MergeRows(agents.entries, rows)
    ensures if rows == [] then merged == agents else fresh(merged)
  {
    if rows == [] {
      return agents;
    }
    merged := new AgentsMap(agents.entries);
    for i := 0 to |rows|
      invariant fresh(merged) && MergeRows(merged.entries, rows[i..]) == MergeRows(agents.entries, rows)
    {
      assert rows[i..][1..] == rows[i + 1..];
      var row := rows[i];
      var agentId := RowId(row);
      if agentId == "" {
        continue;
      }
      var current := Lookup(merged.entries, agentId).GetOr(NOBODY);
      var metrics := MergeMetrics(current.metrics.GetOr(map[]), row);
      var connection := MergeConnected(current.connection.GetOr(map[]), row);
      connection := MergeLastSeen(connection, row);
      connection := MergeSource(connection);
      if metrics != map[] {
        current := current.(metrics := Some(metrics));
      }
      merged.entries := merged.entries[agentId := current.(connection := Some(connection))];
    }
  }

  // Deletes, one by one, the entries that only a registry they are no longer in speaks for.
  method DropStale(merged: AgentsMap, rows: seq<Row>)
    modifies merged
    ensures merged.entries == WithoutStale(old(merged.entries), rows)
  {
    var registryIds := Ids(rows);
    var before := merged.entries;
    var todo := before.Keys;
    while todo != {}
      invariant todo <= before.Keys
      invariant forall id :: id in merged.entries <==> id in before && (id in todo || id in WithoutStale(before, rows))
      invariant forall id | id in merged.entries :: merged.entries[id] == before[id]
      decreases |todo|
    {
      var agentId :| agentId in todo;
      todo := todo - {agentId};
      if agentId !in registryIds && SourceOf(before[agentId]) == REGISTRY {
        merged.entries := merged.entries - {agentId};
      }
    }
    assert merged.entries == WithoutStale(before, rows);
  }

  // With an empty registry the entries are deleted from the very object that was passed in.
  method ReconcileRegistryAgents(agents: AgentsMap, rows: seq<Row>) returns (merged: AgentsMap)
    modifies agents
    ensures merged.entries == Reconciled(old(agents.entries), rows)
    ensures if rows == [] then merged == agents else fresh(merged) && agents.entries == old(agents.entries)
  {
    merged := MergeRegistryAgents(agents, rows);
    DropStale(merged, rows);
  }

  // ---------- Merging is idempotent ----------

  // The entry has everything that this row could add.
  ghost predicate EntrySettled(e: AgentState, row: Row) {
    && (RowHostname(row) != "" ==> e.metrics.Some? && HasTruthy(e.metrics.value, "hostname"))
    && e.connection.Some?
    && var c := e.connection.value;
       && "connected" in c && c["connected"].Bool?
       && (IsNumber(row.lastSeen) ==> "last_seen" in c && IsNumber(c["last_seen"]))
       && HasTruthy(c, "source")
  }

  lemma MetricsSettle(m: Record, row: Row, other: Row)
    ensures RowHostname(row) != "" ==> HasTruthy(MergeMetrics(m, row), "hostname")
    ensures HasTruthy(m, "hostname") ==> MergeMetrics(m, other) == m
  {
  }

  lemma ConnectionSettles(c: Record, row: Row)
    ensures
      var r := MergeSource(MergeLastSeen(MergeConnected(c, row), row));
      && "connected" in r && r["connected"].Bool?
      && (IsNumber(row.lastSeen) ==> "last_seen" in r && IsNumber(r["last_seen"]))
      && HasTruthy(r, "source")
      && r["source"] == (if HasTruthy(c, "source") then c["source"] else REGISTRY)
  {
    var c1 := MergeConnected(c, row);
    assert HasTruthy(c1, "source") <==> HasTruthy(c, "source");
    var c2 := MergeLastSeen(c1, row);
    assert HasTruthy(c2, "source") <==> HasTruthy(c, "source");
  }

  lemma MergedEntryIsSettled(e: AgentState, row: Row)
    ensures EntrySettled(MergeEntry(e, row), row)
  {
    MetricsSettle(e.metrics.GetOr(map[]), row, row);
    ConnectionSettles(e.connection.GetOr(map[]), row);
  }

  lemma SettledEntryStays(e: AgentState, row: Row)
    requires EntrySettled(e, row)
    ensures MergeEntry(e, row) == e
  {
  }

  // What one row has filled in, no other row takes away.
  lemma OtherRowsKeepSettled(e: AgentState, row: Row, other: Row)
    requires EntrySettled(e, row)
    ensures EntrySettled(MergeEntry(e, other), row)
  {
    ConnectionSettles(e.connection.value, other);
  }

  ghost predicate RowSettled(agents: Agents, row: Row) {
    RowId(row) == "" || (RowId(row) in agents && EntrySettled(agents[RowId(row)], row))
  }

  ghost predicate RowsSettled(agents: Agents, rows: seq<Row>) {
    forall row | row in rows :: RowSettled(agents, row)
  }

  lemma MergeRowSettles(agents: Agents, row: Row, other: Row)
    ensures RowSettled(MergeRow(agents, row), row)
    ensures RowSettled(agents, other) ==> RowSettled(MergeRow(agents, row), other)
    ensures RowSettled(agents, row) ==> MergeRow(agents, row) == agents
  {
    var id := RowId(row);
    if id != "" {
      MergedEntryIsSettled(Lookup(agents, id).GetOr(NOBODY), row);
      if RowSettled(agents, other) && RowId(other) == id {
        OtherRowsKeepSettled(agents[id], other, row);
      }
      if RowSettled(agents, row) {
        SettledEntryStays(agents[id], row);
        assert agents[id := agents[id]] == agents;
      }
    }
  }

  lemma {:induction false} MergeRowsSettles(agents: Agents, rows: seq<Row>, before: seq<Row>)
    requires RowsSettled(agents, before)
    ensures RowsSettled(MergeRows(agents, rows), before) && RowsSettled(MergeRows(agents, rows), rows)
    decreases rows
  {
    if rows != [] {
      var next := MergeRow(agents, rows[0]);
      forall row | row in before ensures RowSettled(next, row) {
        MergeRowSettles(agents, rows[0], row);
      }
      MergeRowSettles(agents, rows[0], rows[0]);
      MergeRowsSettles(next, rows[1..], before + [rows[0]]);
      forall row | row in rows ensures RowSettled(MergeRows(agents, rows), row) {
        assert row in rows[1..] || row in before + [rows[0]];
      }
      forall row | row in before ensures RowSettled(MergeRows(agents, rows), row) {
        assert row in before + [rows[0]];
      }
    }
  }

  lemma {:induction false} SettledRowsStay(agents: Agents, rows: seq<Row>)
    requires RowsSettled(agents, rows)
    ensures MergeRows(agents, rows) == agents
    decreases rows
  {
    if rows != [] {
      assert rows[0] in rows;
      MergeRowSettles(agents, rows[0], rows[0]);
      assert RowsSettled(agents, rows[1..]);
      SettledRowsStay(agents, rows[1..]);
    }
  }

  // Reconciling twice with the same registry changes nothing the second time.
  lemma ReconciliationIsIdempotent(agents: Agents, rows: seq<Row>)
    ensures Reconciled(Reconciled(agents, rows), rows) == Reconciled(agents, rows)
  {
    var once := Reconciled(agents, rows);
    MergeRowsSettles(agents, rows, []);
    forall row | row in rows ensures RowSettled(once, row) {
      assert RowSettled(MergeRows(agents, rows), row);
      assert RowId(row) != "" ==> RowId(row) in Ids(rows);
    }
    SettledRowsStay(once, rows);
  }

  // ---------- What the registry contributes ----------

  lemma {:induction false} MergeInTwo(agents: Agents, first: seq<Row>, second: seq<Row>)
    ensures MergeRows(agents, first + second) == MergeRows(MergeRows(agents, first), second)
    decreases first
  {
    if first == [] {
      assert first + second == second;
    } else {
      assert (first + second)[1..] == first[1..] + second;
      MergeInTwo(MergeRow(agents, first[0]), first[1..], second);
    }
  }

  lemma {:induction false} OtherRowsLeaveAlone(agents: Agents, rows: seq<Row>, id: string)
    requires id != "" && forall row | row in rows :: RowId(row) != id
    ensures Lookup(MergeRows(agents, rows), id) == Lookup(agents, id)
    decreases rows
  {
    if rows != [] {
      assert rows[0] in rows;
      OtherRowsLeaveAlone(MergeRow(agents, rows[0]), rows[1..], id);
    }
  }

  // An agent that only one registry row speaks of is shown without sessions, connected exactly if
  // the row says "online", under its trimmed host name or else display name, and as last seen when
  // the row says.
  lemma KnownFromItsRow(agents: Agents, before: seq<Row>, row: Row, after: seq<Row>)
    requires RowId(row) != "" && RowId(row) !in agents
    requires forall other | other in before + after :: RowId(other) != RowId(row)
    ensures
      var id, shown := RowId(row), Reconciled(agents, before + [row] + after);
      && id in shown && shown[id].sessions == map[] && shown[id].connection.Some?
      && var name := Trim(IsJsSpace, if row.hostname != "" then row.hostname else row.displayName);
         var seen := row.lastSeen.Int? || row.lastSeen.Real?;
         var base := map["connected" := Bool(row.status == "online"), "source" := Str("registry")];
         && shown[id].connection.value == (if seen then base["last_seen" := row.lastSeen] else base)
         && shown[id].metrics == (if name != "" then Some(map["hostname" := Str(name)]) else None)
  {
    var id, rows := RowId(row), before + [row] + after;
    MergeInTwo(agents, before + [row], after);
    MergeInTwo(agents, before, [row]);
    forall other | other in before ensures RowId(other) != id {
      assert other in before + after;
    }
    forall other | other in after ensures RowId(other) != id {
      assert other in before + after;
    }
    OtherRowsLeaveAlone(agents, before, id);
    var known := MergeRows(agents, before);
    assert id !in known && Lookup(known, id) == None;
    assert MergeRows(known, [row]) == MergeRow(known, row);
    OtherRowsLeaveAlone(MergeRow(known, row), after, id);
    assert Lookup(MergeRows(agents, rows), id) == Some(MergeEntry(NOBODY, row));
    assert row in rows && id in Ids(rows);
    RowAlone(row);
  }

  lemma RowAlone(row: Row)
    ensures
      var e := MergeEntry(NOBODY, row);
      var name := Trim(IsJsSpace, if row.hostname != "" then row.hostname else row.displayName);
      var seen := row.lastSeen.Int? || row.lastSeen.Real?;
      var base := map["connected" := Bool(row.status == "online"), "source" := Str("registry")];
      && e.sessions == map[]
      && e.connection == Some(if seen then base["last_seen" := row.lastSeen] else base)
      && e.metrics == (if name != "" then Some(map["hostname" := Str(name)]) else None)
  {
    var c1 := MergeConnected(map[], row);
    assert c1 == map["connected" := Bool(row.status == "online")];
    var c2 := MergeLastSeen(c1, row);
    assert "source" !in c2;
    var base := map["connected" := Bool(row.status == "online"), "source" := Str("registry")];
    assert MergeSource(c2) == if IsNumber(row.lastSeen) then base["last_seen" := row.lastSeen] else base;
    var m := MergeMetrics(map[], row);
    assert RowHostname(row) != "" ==> "hostname" in m;
  }

  // From `e` to `e'` only gaps were filled.
  ghost predicate OnlyFills(e: AgentState, e': AgentState) {
    var m, m' := e.metrics.GetOr(map[]), e'.metrics.GetOr(map[]);
    var c, c' := e.connection.GetOr(map[]), e'.connection.GetOr(map[]);
    && e'.sessions == e.sessions
    && (forall f | f in m && (f != "hostname" || JsTruthy(m[f])) :: f in m' && m'[f] == m[f])
    && (forall f | f in m' :: f in m || f == "hostname")
    && (forall f | f in c && IsGiven(f, c[f]) :: f in c' && c'[f] == c[f])
    && (forall f | f in c' :: f in c || f in {"connected", "last_seen", "source"})
  }

  // What a connection record says for good: a flag, a time, a source, and any other field.
  predicate IsGiven(f: string, v: Json) {
    && (f == "connected" ==> v.Bool?)
    && (f == "last_seen" ==> v.Int? || v.Real?)
    && (f == "source" ==> JsTruthy(v))
  }

  lemma MergeEntryOnlyFills(e: AgentState, row: Row)
    ensures OnlyFills(e, MergeEntry(e, row))
  {
    var c := e.connection.GetOr(map[]);
    var c1 := MergeConnected(c, row);
    var c2 := MergeLastSeen(c1, row);
    assert forall f | f in c && IsGiven(f, c[f]) :: f in c2 && c2[f] == c[f];
  }

  lemma FillsTwice(a: AgentState, b: AgentState, c: AgentState)
    requires OnlyFills(a, b) && OnlyFills(b, c)
    ensures OnlyFills(a, c)
  {
  }

  // What is known of an agent already, the registry only completes.
  lemma {:induction false} RegistryOnlyFills(agents: Agents, rows: seq<Row>, id: string)
    requires id in agents
    ensures id in MergeRows(agents, rows) && OnlyFills(agents[id], MergeRows(agents, rows)[id])
    decreases rows
  {
    if rows != [] {
      var next := MergeRow(agents, rows[0]);
      MergeEntryOnlyFills(agents[id], rows[0]);
      RegistryOnlyFills(next, rows[1..], id);
      FillsTwice(agents[id], next[id], MergeRows(next, rows[1..])[id]);
    }
  }

  // ---------- Who is shown, and why ----------

  lemma IdsGrow(rows: seq<Row>)
    requires rows != []
    ensures Ids(rows) == Ids(rows[1..]) + (if RowId(rows[0]) != "" then {RowId(rows[0])} else {})
  {
    assert rows == [rows[0]] + rows[1..];
  }

  lemma MergeRowSource(agents: Agents, row: Row, id: string)
    requires id in MergeRow(agents, row)
    ensures
      var named := RowId(row) != "" && id == RowId(row);
      SourceOf(MergeRow(agents, row)[id])
      == if id in agents && (!named || JsTruthy(SourceOf(agents[id]))) then SourceOf(agents[id]) else REGISTRY
  {
    if id == RowId(row) {
      ConnectionSettles(Lookup(agents, id).GetOr(NOBODY).connection.GetOr(map[]), row);
    }
  }

  lemma {:induction false} MergedKeys(agents: Agents, rows: seq<Row>)
    ensures MergeRows(agents, rows).Keys == agents.Keys + Ids(rows)
    decreases rows
  {
    if rows != [] {
      MergedKeys(MergeRow(agents, rows[0]), rows[1..]);
      IdsGrow(rows);
    }
  }

  // A source that was given stays; everybody named by a row without one comes from the registry.
  lemma {:induction false} MergedSource(agents: Agents, rows: seq<Row>, id: string)
    requires id in MergeRows(agents, rows)
    ensures
      SourceOf(MergeRows(agents, rows)[id])
      == if id in agents && (id !in Ids(rows) || JsTruthy(SourceOf(agents[id]))) then SourceOf(agents[id]) else REGISTRY
    decreases rows
  {
    if rows != [] {
      var next := MergeRow(agents, rows[0]);
      MergedKeys(next, rows[1..]);
      IdsGrow(rows);
      MergedSource(next, rows[1..], id);
      if id in next {
        MergeRowSource(agents, rows[0], id);
      }
    }
  }

  lemma MergedKeysAndSources(agents: Agents, rows: seq<Row>)
    ensures MergeRows(agents, rows).Keys == agents.Keys + Ids(rows)
    ensures forall id | id in MergeRows(agents, rows) ::
      SourceOf(MergeRows(agents, rows)[id])
      == if id in agents && (id !in Ids(rows) || JsTruthy(SourceOf(agents[id]))) then SourceOf(agents[id]) else REGISTRY
  {
    MergedKeys(agents, rows);
    forall id | id in MergeRows(agents, rows) ensures SourceOf(MergeRows(agents, rows)[id])
      == if id in agents && (id !in Ids(rows) || JsTruthy(SourceOf(agents[id]))) then SourceOf(agents[id]) else REGISTRY
    {
      MergedSource(agents, rows, id);
    }
  }

  // Everybody in the picture is known to come from a snapshot or from the registry.
  ghost predicate Sourced(agents: Agents, live: set<string>) {
    && live <= agents.Keys
    && forall id | id in agents :: SourceOf(agents[id]) == if id in live then RUNTIME else REGISTRY
  }

  // Reconciling keeps every live agent and shows, besides them, exactly the registered ones.
  lemma ReconciledShows(agents: Agents, live: set<string>, rows: seq<Row>)
    requires Sourced(agents, live)
    ensures Reconciled(agents, rows).Keys == live + Ids(rows)
    ensures Sourced(Reconciled(agents, rows), live)
  {
    MergedKeysAndSources(agents, rows);
  }

  lemma MarkedIsSourced(snapshot: Agents)
    ensures Marked(snapshot).Keys == snapshot.Keys && Sourced(Marked(snapshot), snapshot.Keys)
  {
  }

  lemma StrippedIsSourced(agents: Agents, live: set<string>)
    requires Sourced(agents, live)
    ensures Stripped(agents).Keys == agents.Keys && Sourced(Stripped(agents), live)
    ensures forall id | id in agents ::
      && Stripped(agents)[id].sessions == map[]
      && Stripped(agents)[id].connection.Some? && Stripped(agents)[id].connection.value["connected"] == Bool(false)
  {
  }

  // What the page does over time: the registry is fetched, a snapshot arrives, the socket closes.
  datatype Op = RegistryFetched(rows: seq<Row>) | SnapshotArrived(snapshot: Agents) | SocketClosed

  datatype Page = Page(agents: Agents, rows: seq<Row>, live: set<string>)

  function After(ops: seq<Op>): Page {
    if ops == [] then Page(map[], [], {})
    else
      var p := After(ops[..|ops| - 1]);
      match ops[|ops| - 1]
      case RegistryFetched(rows) => Page(Reconciled(p.agents, rows), rows, p.live)
      case SnapshotArrived(snapshot) => Page(Reconciled(Marked(snapshot), p.rows), p.rows, snapshot.Keys)
      case SocketClosed => p.(agents := Stripped(p.agents))
  }

  // Over every run the page shows exactly the agents of the last snapshot and of the registry:
  // no live agent is dropped, and whoever is shown only as registered is in the registry.
  lemma {:induction false} PageShows(ops: seq<Op>)
    ensures
      var p := After(ops);
      p.agents.Keys == p.live + Ids(p.rows) && Sourced(p.agents, p.live)
  {
    if ops != [] {
      PageShows(ops[..|ops| - 1]);
      var p := After(ops[..|ops| - 1]);
      match ops[|ops| - 1]
      case RegistryFetched(rows) =>
        ReconciledShows(p.agents, p.live, rows);
      case SnapshotArrived(snapshot) =>
        MarkedIsSourced(snapshot);
        ReconciledShows(Marked(snapshot), snapshot.Keys, p.rows);
      case SocketClosed =>
        StrippedIsSourced(p.agents, p.live);
    }
  }

  // Whatever the picture was before, nobody is left in it on the word of the registry alone
  // who is not registered, and nobody with another source is dropped.
  lemma OnlyRegisteredRemain(agents: Agents, rows: seq<Row>)
    ensures forall id | id in Reconciled(agents, rows) && SourceOf(Reconciled(agents, rows)[id]) == REGISTRY :: id in Ids(rows)
    ensures forall id | id in agents && SourceOf(agents[id]) != REGISTRY :: id in Reconciled(agents, rows)
    ensures Ids(rows) <= Reconciled(agents, rows).Keys
  {
    MergedKeysAndSources(agents, rows);
  }
}
