/**
 The provisioning code in its own form: loops over dictionaries and lists, and reads and
 writes of the remote store one request at a time. Every method is proved to compute what
 the functions of GuacamoleModel say, so that the theorems of GuacamoleTheory are about it.
 */
module GuacamoleBridge {
  import opened Prelude
  import opened Text
  import opened PyDict
  import opened Model = GuacamoleModel

  // A request that changed the store.
  datatype Write = WriteGroup(identifier: string) | WriteConnection(identifier: string)

  class RemoteStore {
    var groups: Items<Group>
    var connections: Items<Connection>
    var writes: seq<Write>

    constructor ()
      ensures groups == [] && connections == [] && writes == []
    {
      groups, connections, writes := [], [], [];
    }

    ghost function Contents(): Store
      reads this
    {
      Store(groups, connections)
    }

    method WriteGroup(id: string, payload: Group)
      modifies this
      ensures groups == Put(old(groups), id, payload)
      ensures connections == old(connections)
      ensures writes == old(writes) + [Write.WriteGroup(id)]
    {
      groups := Put(groups, id, payload);
      writes := writes + [Write.WriteGroup(id)];
    }

    method WriteConnection(id: string, payload: Connection)
      modifies this
      ensures connections == Put(old(connections), id, payload)
      ensures groups == old(groups)
      ensures writes == old(writes) + [Write.WriteConnection(id)]
    {
      connections := Put(connections, id, payload);
      writes := writes + [Write.WriteConnection(id)];
    }
  }

  // ---------- Loops over dictionaries and lists ----------

  method NormalizeStringDict(payload: Params) returns (result: Params)
    ensures result == Normalize(payload)
  {
    result := [];
    for i := 0 to |payload|
      invariant NormalizeInto(result, payload[i..]) == Normalize(payload)
    {
      assert payload[i..][1..] == payload[i + 1..];
      var key, value := Clean(payload[i].0), Clean(payload[i].1);
      if key != "" && value != "" {
        result := Put(result, key, value);
      }
    }
  }

  method ReadConnectionParameters(decoded: Params) returns (parameters: Params)
    ensures parameters == CleanParameters(decoded)
  {
    parameters := [];
    for i := 0 to |decoded|
      invariant CleanInto(parameters, decoded[i..]) == CleanParameters(decoded)
    {
      assert decoded[i..][1..] == decoded[i + 1..];
      var key := Clean(decoded[i].0);
      if key != "" {
        parameters := Put(parameters, key, Clean(decoded[i].1));
      }
    }
  }

  method CollectUniqueStrings(fold: Fold, values: seq<string>) returns (result: seq<string>)
    ensures result == UniqueStrings(fold, values)
  {
    result := [];
    var seen: set<string> := {};
    for i := 0 to |values|
      invariant UniqueInto(fold, result, seen, values[i..]) == UniqueStrings(fold, values)
    {
      assert values[i..][1..] == values[i + 1..];
      var value := Clean(values[i]);
      if value != "" && fold(value) !in seen {
        seen := seen + {fold(value)};
        result := result + [value];
      }
    }
  }

  method ResolveConnectionGroupIdentifier(fold: Fold, groups: Items<Group>, candidates: seq<string>)
    returns (identifier: string, name: string)
    ensures (identifier, name) == ResolveGroup(fold, Wanted(fold, candidates), groups)
  {
    var wanted := Wanted(fold, candidates);
    for i := 0 to |groups|
      invariant ResolveGroup(fold, wanted, groups[i..]) == ResolveGroup(fold, wanted, groups)
    {
      assert groups[i..][1..] == groups[i + 1..];
      var (key, item) := groups[i];
      if Answers(fold, wanted, key, item.identifier, item.name) {
        return ItemIdentifier(key, item.identifier), Clean(item.name);
      }
    }
    return "", "";
  }

  method ResolveConnectionIdentifier(fold: Fold, connections: Items<Connection>, candidates: seq<string>, parent: string)
    returns (identifier: string, name: string)
    ensures (identifier, name) == ResolveConnection(fold, Wanted(fold, candidates), parent, connections)
  {
    var wanted := Wanted(fold, candidates);
    for i := 0 to |connections|
      invariant ResolveConnection(fold, wanted, parent, connections[i..]) == ResolveConnection(fold, wanted, parent, connections)
    {
      assert connections[i..][1..] == connections[i + 1..];
      var (key, item) := connections[i];
      if parent != "" && Clean(item.parent) != parent {
        continue;
      }
      if Answers(fold, wanted, key, item.identifier, item.name) {
        return ItemIdentifier(key, item.identifier), Clean(item.name);
      }
    }
    return "", "";
  }

  // ---------- Upserts and the whole run ----------

  // A reused record costs no write, an updated or created one exactly one.
  function GroupWriteOf(r: Result<Upsert, Error>): seq<Write> {
    if r.Ok? && r.value.action != Reused then [WriteGroup(r.value.identifier)] else []
  }

  function ConnectionWriteOf(r: Result<Upsert, Error>): seq<Write> {
    if r.Ok? && r.value.action != Reused then [WriteConnection(r.value.identifier)] else []
  }

  method UpsertGuacamoleGroup(cfg: Config, fold: Fold, remote: RemoteStore, m: Mapping, newId: string)
    returns (r: Result<Upsert, Error>)
    modifies remote
    ensures (remote.Contents(), r) == UpsertGroup(cfg, fold, m, old(remote.Contents()), newId)
    ensures remote.writes == old(remote.writes) + GroupWriteOf(r)
  {
    var id, name := Clean(m.groupIdentifier), Clean(m.groupName);
    if id == "" {
      var resolved;
      id, resolved := ResolveConnectionGroupIdentifier(fold, remote.groups, m.groupCandidates);
      if resolved != "" {
        name := resolved;
      }
    }
    assert (id, name) == GroupTarget(fold, m, remote.Contents());
    var existing := NO_GROUP;
    if id != "" {
      var found := Find(remote.groups, id);
      if found.None? {
        return Err(NotFound(id));
      }
      existing := found.value;
      if Clean(existing.name) != "" {
        name := Clean(existing.name);
      }
    }
    var payload := GroupPayload(cfg, name, existing);
    if id != "" {
      if GroupMatches(payload, existing) {
        return Ok(Upsert(id, name, Reused));
      }
      remote.WriteGroup(id, payload);
      return Ok(Upsert(id, name, Updated));
    }
    remote.WriteGroup(newId, payload.(identifier := newId));
    return Ok(Upsert(newId, name, Created));
  }

  // The connection the mapping points at, or the first one that answers to a candidate name.
  method FindConnection(fold: Fold, connections: Items<Connection>, req: Request, m: Mapping) returns (id: string, name: string)
    ensures (id, name) == ConnectionTarget(fold, req, m, Store([], connections))
  {
    id, name := Clean(m.connectionIdentifier), Or(Clean(m.connectionName), Clean(req.hostname));
    if id == "" {
      var resolved;
      id, resolved := ResolveConnectionIdentifier(fold, connections, m.connectionCandidates, Clean(m.groupIdentifier));
      if resolved != "" {
        name := resolved;
      }
    }
  }

  // The connection is there: build the desired record and write it back only on a difference.
  method ReviseConnection(cfg: Config, remote: RemoteStore, req: Request, m: Mapping, id: string, name: string,
                          existing: Connection)
    returns (u: Upsert)
    modifies remote
    ensures (remote.Contents(), u) == RevisedConnection(cfg, req, m, old(remote.Contents()), id, name, existing)
    ensures remote.writes == old(remote.writes) + ConnectionWriteOf(Ok(u))
  {
    var parameters := ReadConnectionParameters(existing.parameters);
    var payload := ConnectionPayload(cfg, req, m.(connectionName := name), existing, parameters);
    if ConnectionMatches(payload, existing, parameters) {
      return Upsert(id, Or(name, payload.name), Reused);
    }
    ghost var before := remote.Contents();
    remote.WriteConnection(id, payload);
    assert remote.Contents() == before.(connections := Put(before.connections, id, payload));
    return Upsert(id, Or(name, payload.name), Updated);
  }

  method UpsertGuacamoleConnection(cfg: Config, fold: Fold, remote: RemoteStore, req: Request, m: Mapping, newId: string)
    returns (r: Result<Upsert, Error>)
    modifies remote
    ensures (remote.Contents(), r) == UpsertConnection(cfg, fold, req, m, old(remote.Contents()), newId)
    ensures remote.writes == old(remote.writes) + ConnectionWriteOf(r)
  {
    var id, name := FindConnection(fold, remote.connections, req, m);
    assert (id, name) == ConnectionTarget(fold, req, m, remote.Contents());
    if id == "" {
      var payload := ConnectionPayload(cfg, req, m.(connectionName := name), NO_CONNECTION, []);
      remote.WriteConnection(newId, payload.(identifier := newId));
      return Ok(Upsert(newId, Or(name, payload.name), Created));
    }
    var found := Find(remote.connections, id);
    if found.None? {
      return Err(NotFound(id));
    }
    if Clean(found.value.name) != "" {
      name := Clean(found.value.name);
    }
    var u := ReviseConnection(cfg, remote, req, m, id, name, found.value);
    return Ok(u);
  }

  // What a run may add to the log: at most one write of the group, then at most one of the connection.
  ghost predicate WritesOnceEach(before: seq<Write>, after: seq<Write>, outcome: Outcome) {
    match outcome
    case Skipped => after == before
    case Failed(_) => after == before || exists id :: after == before + [WriteGroup(id)]
    case Done(m, group, connection) =>
      after == before
        + (if group == Reused then [] else [WriteGroup(m.groupIdentifier)])
        + (if connection == Reused then [] else [WriteConnection(m.connectionIdentifier)])
  }

  method ProvisionAgentTarget(cfg: Config, fold: Fold, remote: RemoteStore, req: Request, mapping: Mapping, token: string,
                              newGroup: string, newConnection: string)
    returns (outcome: Outcome)
    modifies remote
    ensures (remote.Contents(), outcome)
         == Provision(cfg, fold, req, mapping, token, old(remote.Contents()), newGroup, newConnection)
    ensures WritesOnceEach(old(remote.writes), remote.writes, outcome)
  {
    if !cfg.autoProvision || !cfg.bridgeEnabled {
      return Skipped;
    }
    if !cfg.hasCredentials {
      return Failed(NoCredentials);
    }
    if Clean(token) == "" {
      return Failed(NoToken);
    }
    var group := UpsertGuacamoleGroup(cfg, fold, remote, mapping, newGroup);
    if group.Err? {
      return Failed(group.error);
    }
    ghost var afterGroup := remote.writes;
    assert afterGroup == old(remote.writes)
      || afterGroup == old(remote.writes) + [WriteGroup(group.value.identifier)];
    var next := WithGroup(mapping, group.value);
    var connection := UpsertGuacamoleConnection(cfg, fold, remote, req, next, newConnection);
    if connection.Err? {
      return Failed(connection.error);
    }
    next := WithConnection(next, connection.value);
    var groupCandidates := CollectUniqueStrings(fold, next.groupCandidates + [next.groupName, req.agentId]);
    var connectionCandidates := CollectUniqueStrings(fold,
      next.connectionCandidates + [next.connectionIdentifier, next.connectionName, req.hostname, req.agentId]);
    next := next.(groupCandidates := groupCandidates, connectionCandidates := connectionCandidates);
    return Done(next, group.value.action, connection.value.action);
  }
}
