/**
 What a run leaves of a record that was there before, read back from the store: nonempty
 parameters and attributes that are neither forced nor rendered keep their values, and nothing
 appears that was not there, forced or rendered.
 */
module GuacamoleFrame {
  import opened Prelude
  import opened Text
  import opened PyDict
  import opened GuacamoleModel
  import opened GuacamoleTheory

  type Contents = map<string, string>

  // From `had` to `now` under forced values and a rendered template.
  ghost predicate KeepsTheRest(had: Contents, now: Contents, forced: Contents, template: Contents) {
    && (forall k | k in had && k !in forced && k !in template :: k in now && now[k] == had[k])
    && (forall k | k in now :: k in had || k in forced || k in template)
  }

  // The nonempty parameters of a stored connection, as the code reads them.
  ghost function Parameters(c: Connection): Contents {
    ToMap(Normalize(CleanParameters(c.parameters)))
  }

  ghost function Attributes(attributes: Params): Contents {
    ToMap(Normalize(attributes))
  }

  ghost predicate ConnectionKeepsTheRest(cfg: Config, req: Request, m: Mapping, before: Connection, after: Connection) {
    && KeepsTheRest(Parameters(before), Parameters(after), Forced(cfg, req, m), TemplateParameters(cfg, req, m))
    && KeepsTheRest(Attributes(before.attributes), Attributes(after.attributes), map[], TemplateAttributes(cfg, req, m))
  }

  lemma LayersKeepTheRest(p: Params, x: Contents, f: Contents, t: Contents)
    requires Tidy(p) && ToMap(p) == x + f + t && Full(x)
    ensures KeepsTheRest(x, ToMap(Normalize(p)), f, t)
    ensures KeepsTheRest(x, ToMap(Normalize(CleanParameters(p))), f, t)
  {
    Downloaded(p);
    Normalized(p);
    Normalized(CleanParameters(p));
  }

  lemma PayloadKeepsTheRest(cfg: Config, req: Request, m: Mapping, existing: Connection)
    ensures ConnectionKeepsTheRest(cfg, req, m, existing,
                                   ConnectionPayload(cfg, req, m, existing, CleanParameters(existing.parameters)))
  {
    var parameters := CleanParameters(existing.parameters);
    var p := ConnectionPayload(cfg, req, m, existing, parameters);
    PayloadParameters(cfg, req, m, existing, parameters);
    Normalized(parameters);
    Normalized(existing.attributes);
    LayersKeepTheRest(p.parameters, Parameters(existing), Forced(cfg, req, m), TemplateParameters(cfg, req, m));
    LayersKeepTheRest(p.attributes, Attributes(existing.attributes), map[], TemplateAttributes(cfg, req, m));
  }

  // The record that an upsert leaves of a connection that is there.
  lemma RevisedRecord(cfg: Config, req: Request, m: Mapping, store: Store, id: string, name: string, existing: Connection)
    requires Find(store.connections, id) == Some(existing)
    ensures
      var (store', u) := RevisedConnection(cfg, req, m, store, id, name, existing);
      var payload := ConnectionPayload(cfg, req, m.(connectionName := name), existing, CleanParameters(existing.parameters));
      && u.identifier == id && u.name == Or(name, payload.name) && u.action != Created
      && (Find(store'.connections, id) == Some(existing) || Find(store'.connections, id) == Some(payload))
  {
    var payload := ConnectionPayload(cfg, req, m.(connectionName := name), existing, CleanParameters(existing.parameters));
    FindAfterPut(store.connections, id, payload, id);
  }

  lemma UpsertRevises(cfg: Config, fold: Fold, req: Request, m: Mapping, store: Store, newId: string)
    requires
      var (id, _) := ConnectionTarget(fold, req, m, store);
      id != "" && Find(store.connections, id).Some?
    ensures
      var (store', r) := UpsertConnection(cfg, fold, req, m, store, newId);
      var (id, target) := ConnectionTarget(fold, req, m, store);
      var existing := Find(store.connections, id).value;
      var name := Or(Clean(existing.name), target);
      && r.Ok? && r.value.identifier == id && r.value.name == name && r.value.action != Created
      && (store', r.value) == RevisedConnection(cfg, req, m, store, id, name, existing)
  {
    ConnectionTargetIsClean(fold, req, m, store);
    var (id, target) := ConnectionTarget(fold, req, m, store);
    var existing := Find(store.connections, id).value;
    var name := Or(Clean(existing.name), target);
    RevisedRecord(cfg, req, m, store, id, name, existing);
    var payload := ConnectionPayload(cfg, req, m.(connectionName := name), existing, CleanParameters(existing.parameters));
    assert payload.name == Or(Clean(name), Clean(req.hostname));
  }

  // An upsert keeps what was there in the connection, in the store that it leaves.
  lemma UpsertKeepsTheRest(cfg: Config, fold: Fold, req: Request, m: Mapping, store: Store, newId: string)
    requires
      var (id, _) := ConnectionTarget(fold, req, m, store);
      id != "" && Find(store.connections, id).Some?
    ensures
      var (store', r) := UpsertConnection(cfg, fold, req, m, store, newId);
      && r.Ok?
      && var before, after := Find(store.connections, r.value.identifier), Find(store'.connections, r.value.identifier);
         && before.Some? && after.Some?
         && ConnectionKeepsTheRest(cfg, req, m.(connectionName := r.value.name), before.value, after.value)
  {
    UpsertRevises(cfg, fold, req, m, store, newId);
    var (id, target) := ConnectionTarget(fold, req, m, store);
    var existing := Find(store.connections, id).value;
    var named := m.(connectionName := Or(Clean(existing.name), target));
    RevisedRecord(cfg, req, m, store, id, Or(Clean(existing.name), target), existing);
    PayloadKeepsTheRest(cfg, req, named, existing);
  }

  // A group that was there keeps exactly its nonempty attributes, and its parent if it had one.
  lemma GroupKeepsTheRest(cfg: Config, fold: Fold, m: Mapping, store: Store, newId: string)
    requires
      var (_, r) := UpsertGroup(cfg, fold, m, store, newId);
      r.Ok? && r.value.action != Created
    ensures
      var (store', r) := UpsertGroup(cfg, fold, m, store, newId);
      var before, after := Find(store.groups, r.value.identifier), Find(store'.groups, r.value.identifier);
      && before.Some? && after.Some?
      && Attributes(after.value.attributes) == Attributes(before.value.attributes)
      && (Clean(before.value.parent) != "" ==> Clean(after.value.parent) == Clean(before.value.parent))
  {
    var (id, name) := GroupTarget(fold, m, store);
    var existing := Find(store.groups, id).value;
    RevisedGroupRecord(cfg, store, id, Or(Clean(existing.name), name), existing);
  }

  lemma RevisedGroupRecord(cfg: Config, store: Store, id: string, name: string, existing: Group)
    requires Find(store.groups, id) == Some(existing)
    ensures
      var (store', u) := RevisedGroup(cfg, store, id, name, existing);
      var after := Find(store'.groups, id);
      && u.identifier == id && after.Some?
      && Attributes(after.value.attributes) == Attributes(existing.attributes)
      && (Clean(existing.parent) != "" ==> Clean(after.value.parent) == Clean(existing.parent))
  {
    FindAfterPut(store.groups, id, GroupPayload(cfg, name, existing), id);
    Normalized(existing.attributes);
  }

  // An upsert that does not create a connection has found one.
  lemma FoundUnlessCreated(cfg: Config, fold: Fold, req: Request, m: Mapping, store: Store, newId: string)
    requires
      var (_, r) := UpsertConnection(cfg, fold, req, m, store, newId);
      r.Ok? && r.value.action != Created
    ensures
      var (id, _) := ConnectionTarget(fold, req, m, store);
      id != "" && Find(store.connections, id).Some?
  {
  }

  // The name a run returns, trimmed, is the name that its connection was built for.
  lemma NamedAfterRun(cfg: Config, fold: Fold, req: Request, m1: Mapping, store: Store, newId: string)
    requires
      var (id, _) := ConnectionTarget(fold, req, m1, store);
      id != "" && Find(store.connections, id).Some?
    ensures
      var c := UpsertConnection(cfg, fold, req, m1, store, newId).1;
      && c.Ok?
      && var named, named' := m1.(connectionName := c.value.name), Named(WithCandidates(fold, req, WithConnection(m1, c.value)));
         && Forced(cfg, req, named') == Forced(cfg, req, named)
         && TemplateParameters(cfg, req, named') == TemplateParameters(cfg, req, named)
         && TemplateAttributes(cfg, req, named') == TemplateAttributes(cfg, req, named)
  {
    UpsertRevises(cfg, fold, req, m1, store, newId);
    ConnectionTargetIsClean(fold, req, m1, store);
    var c := UpsertConnection(cfg, fold, req, m1, store, newId).1.value;
    assert IsClean(c.name) && (c.name == "" ==> Clean(m1.connectionName) == "");
    OnlyNamesMatter(cfg, req, m1.(connectionName := c.name), Named(WithCandidates(fold, req, WithConnection(m1, c))));
  }

  // A whole run: the group and the connection that were there keep the rest of their contents.
  lemma ProvisioningKeepsTheRest(cfg: Config, fold: Fold, req: Request, m: Mapping, token: string, store: Store,
                                 newGroup: string, newConnection: string)
    requires Provision(cfg, fold, req, m, token, store, newGroup, newConnection).1.Done?
    ensures
      var (store', out) := Provision(cfg, fold, req, m, token, store, newGroup, newConnection);
      out.group != Created ==>
        var before, after := Find(store.groups, out.mapping.groupIdentifier), Find(store'.groups, out.mapping.groupIdentifier);
        && before.Some? && after.Some?
        && Attributes(after.value.attributes) == Attributes(before.value.attributes)
        && (Clean(before.value.parent) != "" ==> Clean(after.value.parent) == Clean(before.value.parent))
    ensures
      var (store', out) := Provision(cfg, fold, req, m, token, store, newGroup, newConnection);
      out.connection != Created ==>
        var id := out.mapping.connectionIdentifier;
        && Find(store.connections, id).Some? && Find(store'.connections, id).Some?
        && ConnectionKeepsTheRest(cfg, req, Named(out.mapping),
                                  Find(store.connections, id).value, Find(store'.connections, id).value)
  {
    ProvisionInStages(cfg, fold, req, m, token, store, newGroup, newConnection);
    var (store1, g) := UpsertGroup(cfg, fold, m, store, newGroup);
    var m1 := WithGroup(m, g.value);
    var (store2, c) := UpsertConnection(cfg, fold, req, m1, store1, newConnection);
    GroupStageFrame(cfg, fold, m, store, newGroup);
    ConnectionStageFrame(cfg, fold, req, m1, store1, newConnection);
    if g.value.action != Created {
      GroupKeepsTheRest(cfg, fold, m, store, newGroup);
    }
    if c.value.action != Created {
      FoundUnlessCreated(cfg, fold, req, m1, store1, newConnection);
      UpsertKeepsTheRest(cfg, fold, req, m1, store1, newConnection);
      NamedAfterRun(cfg, fold, req, m1, store1, newConnection);
    }
  }
}
