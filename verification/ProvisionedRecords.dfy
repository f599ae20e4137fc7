/**
 The records that a successful provisioning run leaves in the remote store, value by value, and
 when a run succeeds at all.
 */
module ProvisionedRecords {
  import opened Prelude
  import opened Text
  import opened PyDict
  import opened GuacamoleModel
  import opened GuacamoleTheory
  import opened GuacamoleFrame
  import opened GuacamoleLookup

  // ---------- The parameters of the connection ----------

  // An empty value means that the key is absent.
  ghost predicate Holds(x: Contents, k: string, v: string) {
    if v == "" then k !in x else k in x && x[k] == v
  }

  // A trimmed text, or the other one if it is blank.
  function FirstNonblank(a: string, b: string): string {
    if Clean(a) != "" then Clean(a) else Clean(b)
  }

  // Parameters of a connection to `host` as `user` of `domain`, up to what the template overrides.
  ghost predicate ConnectsTo(x: Contents, template: Contents, host: string, port: string, user: string, domain: string) {
    && ("hostname" !in template ==> Holds(x, "hostname", host))
    && ("port" !in template ==> Holds(x, "port", port))
    && ("resize-method" !in template ==> Holds(x, "resize-method", "display-update"))
    && ("ignore-cert" !in template ==> Holds(x, "ignore-cert", "true"))
    && (user != "" && "username" !in template ==> Holds(x, "username", user))
    && (domain != "" && "domain" !in template ==> Holds(x, "domain", domain))
    && (forall k | k in template :: Holds(x, k, template[k]))
  }

  // The keys that a run sets without the template.
  predicate IsSet(k: string, user: string, domain: string) {
    || k in {"hostname", "port", "resize-method", "ignore-cert"}
    || (k == "username" && user != "") || (k == "domain" && domain != "")
  }

  // What the run renders the templates with.
  function ValuesShown(cfg: Config, req: Request, out: Mapping): TemplateValues {
    TemplateValues(
      Clean(req.agentId), Clean(req.hostname), FirstNonblank(out.targetHost, req.hostname), Clean(out.username), Clean(out.domain),
      if Clean(req.password) != "" then Clean(req.password) else cfg.defaultPassword,
      if Clean(req.secret) != "" then Clean(req.secret) else cfg.defaultSecret,
      Clean(out.groupName), Clean(out.connectionName))
  }

  ghost function Rendered(template: TemplateValues -> Params, cfg: Config, req: Request, out: Mapping): Contents {
    ToMap(Normalize(template(ValuesShown(cfg, req, out))))
  }

  // The values that a run sets itself.
  ghost predicate Sets(f: Contents, host: string, port: string, user: string, domain: string) {
    && (forall k :: k in f <==> IsSet(k, user, domain))
    && Lookup(f, "hostname") == Some(host) && Lookup(f, "port") == Some(port)
    && Lookup(f, "resize-method") == Some("display-update") && Lookup(f, "ignore-cert") == Some("true")
    && (user != "" ==> Lookup(f, "username") == Some(user)) && (domain != "" ==> Lookup(f, "domain") == Some(domain))
  }

  lemma ForcedValues(cfg: Config, req: Request, m: Mapping)
    ensures Sets(Forced(cfg, req, m), FirstNonblank(m.targetHost, req.hostname), cfg.rdpPort,
                 SplitCredentials(m).0, SplitCredentials(m).1)
  {
    var (user, domain) := SplitCredentials(m);
    var d5 := OptionalItem("domain", domain, []);
    var d4 := OptionalItem("username", user, d5);
    ItemUpdates("domain", domain, []);
    ItemUpdates("username", user, d5);
    HeaderValues(cfg, FirstNonblank(m.targetHost, req.hostname), d4);
    HeaderSets(ToMap(d4), FirstNonblank(m.targetHost, req.hostname), cfg.rdpPort, user, domain);
  }

  lemma HeaderSets(d: Contents, host: string, port: string, user: string, domain: string)
    requires forall k :: k in d <==> (k == "username" && user != "") || (k == "domain" && domain != "")
    requires user != "" ==> d["username"] == user
    requires domain != "" ==> d["domain"] == domain
    ensures Sets(d["ignore-cert" := "true"]["resize-method" := "display-update"]["port" := port]["hostname" := host],
                 host, port, user, domain)
  {
  }

  lemma SameCredentials(m: Mapping, m': Mapping)
    requires m'.username == m.username && m'.domain == m.domain
    ensures SplitCredentials(m') == SplitCredentials(m)
  {
  }

  lemma HeaderValues(cfg: Config, host: string, d: Params)
    ensures
      ToMap(Item("hostname", host,
        Item("port", cfg.rdpPort, Item("resize-method", "display-update", Item("ignore-cert", "true", d)))))
      == ToMap(d)["ignore-cert" := "true"]["resize-method" := "display-update"]["port" := cfg.rdpPort]["hostname" := host]
  {
    var d3 := Item("ignore-cert", "true", d);
    var d2 := Item("resize-method", "display-update", d3);
    ItemUpdates("ignore-cert", "true", d);
    ItemUpdates("resize-method", "display-update", d3);
    ItemUpdates("port", cfg.rdpPort, d2);
    ItemUpdates("hostname", host, Item("port", cfg.rdpPort, d2));
  }

  lemma ItemUpdates(k: string, v: string, d: Params)
    ensures ToMap(Item(k, v, d)) == ToMap(d)[k := v]
  {
    assert Item(k, v, d)[1..] == d;
  }

  lemma AbsorbedConnects(x: Contents, f: Contents, template: Contents, host: string, port: string, user: string, domain: string)
    requires Sets(f, host, port, user, domain) && Absorbed(x, f, template) && Full(template)
    requires port != ""
    ensures ConnectsTo(x, template, host, port, user, domain)
  {
    assert "hostname" in f && "port" in f && "resize-method" in f && "ignore-cert" in f;
    assert user != "" ==> "username" in f;
    assert domain != "" ==> "domain" in f;
  }

  // ---------- Whole runs ----------

  // A connection to `host` as `user` of `domain`, for the mapping `out` that a run returned.
  ghost predicate LeadsTo(cfg: Config, req: Request, out: Mapping, c: Connection, host: string, user: string, domain: string) {
    && ConnectsTo(Parameters(c), Rendered(cfg.parameterTemplate, cfg, req, out), host, cfg.rdpPort, user, domain)
    && Shows(Attributes(c.attributes), Rendered(cfg.attributeTemplate, cfg, req, out))
    && Clean(c.protocol) == cfg.protocol
    && Clean(c.parent) == out.groupIdentifier != ""
    && Clean(c.name) == FirstNonblank(out.connectionName, req.hostname)
  }

  ghost predicate Shows(x: Contents, template: Contents) {
    forall k | k in template :: k in x && x[k] == template[k]
  }

  // After every successful run the connection that the returned mapping names is in the store, and
  // it leads to the machine of the mapping, under its group.
  lemma ConnectionLeadsToTheTarget(cfg: Config, fold: Fold, req: Request, m: Mapping, token: string, store: Store,
                                   newGroup: string, newConnection: string)
    requires AssignsFresh(store, newGroup, newConnection)
    requires Provision(cfg, fold, req, m, token, store, newGroup, newConnection).1.Done?
    ensures
      var (store', out) := Provision(cfg, fold, req, m, token, store, newGroup, newConnection);
      var c := Find(store'.connections, out.mapping.connectionIdentifier);
      && out.mapping.connectionIdentifier != "" && c.Some?
      && LeadsTo(cfg, req, out.mapping, c.value, FirstNonblank(m.targetHost, req.hostname),
                 SplitCredentials(m).0, SplitCredentials(m).1)
  {
    ProvisionInStages(cfg, fold, req, m, token, store, newGroup, newConnection);
    var (store1, g) := UpsertGroup(cfg, fold, m, store, newGroup);
    var m1 := WithGroup(m, g.value);
    GroupIsSettled(cfg, fold, m, store, newGroup);
    StoredConnectionLeads(cfg, fold, req, m1, store1, newConnection);
    SameCredentials(m, m1);
  }

  lemma StoredConnectionLeads(cfg: Config, fold: Fold, req: Request, m: Mapping, store: Store, newId: string)
    requires newId != "" && IsClean(newId) && IsClean(m.groupIdentifier) && m.groupIdentifier != ""
    requires UpsertConnection(cfg, fold, req, m, store, newId).1.Ok?
    ensures
      var (store', r) := UpsertConnection(cfg, fold, req, m, store, newId);
      var c := Find(store'.connections, r.value.identifier);
      && r.value.identifier != "" && c.Some?
      && LeadsTo(cfg, req, WithCandidates(fold, req, WithConnection(m, r.value)), c.value,
                 FirstNonblank(m.targetHost, req.hostname), SplitCredentials(m).0, SplitCredentials(m).1)
  {
    ConnectionIsSettled(cfg, fold, req, m, store, newId);
    var (store', r) := UpsertConnection(cfg, fold, req, m, store, newId);
    SettledLeads(cfg, fold, req, m, r.value, Find(store'.connections, r.value.identifier).value);
  }

  // A settled connection under the mapping that a run returns.
  lemma SettledLeads(cfg: Config, fold: Fold, req: Request, m: Mapping, u: Upsert, c: Connection)
    requires ConnectionSettled(cfg, req, m.(connectionName := u.name), c)
    requires IsClean(u.name) && (u.name == "" ==> Clean(m.connectionName) == "" && Clean(req.hostname) == "")
    requires IsClean(m.groupIdentifier) && m.groupIdentifier != ""
    ensures LeadsTo(cfg, req, WithCandidates(fold, req, WithConnection(m, u)), c,
                    FirstNonblank(m.targetHost, req.hostname), SplitCredentials(m).0, SplitCredentials(m).1)
  {
    var out := WithCandidates(fold, req, WithConnection(m, u));
    var named := m.(connectionName := u.name);
    assert ValuesFor(cfg, req, named) == ValuesShown(cfg, req, out);
    SameCredentials(m, named);
    TemplatesAreFull(cfg, req, named);
    ForcedValues(cfg, req, named);
    AbsorbedConnects(Parameters(c), Forced(cfg, req, named), TemplateParameters(cfg, req, named),
                     FirstNonblank(m.targetHost, req.hostname), cfg.rdpPort, SplitCredentials(m).0, SplitCredentials(m).1);
  }

  // A user name DOMAIN\user is stored as these two parts, unless a domain is given apart.
  lemma QualifiedNameIsStored(cfg: Config, fold: Fold, req: Request, m: Mapping, token: string, store: Store,
                              newGroup: string, newConnection: string, domain: string, user: string)
    requires AssignsFresh(store, newGroup, newConnection)
    requires Provision(cfg, fold, req, m, token, store, newGroup, newConnection).1.Done?
    requires Clean(m.username) == domain + "\\" + user && '\\' !in user && Clean(user) != ""
    ensures
      var (store', out) := Provision(cfg, fold, req, m, token, store, newGroup, newConnection);
      var c := Find(store'.connections, out.mapping.connectionIdentifier);
      var template := Rendered(cfg.parameterTemplate, cfg, req, out.mapping);
      && c.Some?
      && ("username" !in template ==> Holds(Parameters(c.value), "username", Clean(user)))
      && (FirstNonblank(m.domain, domain) != "" && "domain" !in template ==>
            Holds(Parameters(c.value), "domain", FirstNonblank(m.domain, domain)))
  {
    ConnectionLeadsToTheTarget(cfg, fold, req, m, token, store, newGroup, newConnection);
    QualifiedNameSplits(m, domain, user, '\\');
  }

  lemma CorpBobIsQualified()
    ensures Clean("CORP\\bob") == "CORP" + "\\" + "bob" && '\\' !in "bob"
    ensures Clean("bob") == "bob" && Clean("CORP") == "CORP" && Clean("") == ""
  {
    assert "CORP\\bob" == "CORP" + "\\" + "bob";
    assert !IsPySpace('C') && !IsPySpace('P') && !IsPySpace('b');
  }

  lemma CorpBobIsStored(cfg: Config, fold: Fold, req: Request, m: Mapping, token: string, store: Store,
                        newGroup: string, newConnection: string)
    requires AssignsFresh(store, newGroup, newConnection)
    requires Provision(cfg, fold, req, m, token, store, newGroup, newConnection).1.Done?
    requires m.username == "CORP\\bob" && m.domain == ""
    ensures
      var (store', out) := Provision(cfg, fold, req, m, token, store, newGroup, newConnection);
      var c := Find(store'.connections, out.mapping.connectionIdentifier);
      var template := Rendered(cfg.parameterTemplate, cfg, req, out.mapping);
      && c.Some?
      && ("username" !in template ==> Holds(Parameters(c.value), "username", "bob"))
      && ("domain" !in template ==> Holds(Parameters(c.value), "domain", "CORP"))
  {
    CorpBobIsQualified();
    QualifiedNameIsStored(cfg, fold, req, m, token, store, newGroup, newConnection, "CORP", "bob");
  }

  // Everything else about a connection that was there stays, key by key.
  lemma OtherParametersStay(cfg: Config, fold: Fold, req: Request, m: Mapping, token: string, store: Store,
                            newGroup: string, newConnection: string, k: string)
    requires Provision(cfg, fold, req, m, token, store, newGroup, newConnection).1.Done?
    requires Provision(cfg, fold, req, m, token, store, newGroup, newConnection).1.connection != Created
    ensures
      var (store', out) := Provision(cfg, fold, req, m, token, store, newGroup, newConnection);
      var id, template := out.mapping.connectionIdentifier, Rendered(cfg.parameterTemplate, cfg, req, out.mapping);
      var before, after := Find(store.connections, id), Find(store'.connections, id);
      && before.Some? && after.Some?
      && (!IsSet(k, SplitCredentials(m).0, SplitCredentials(m).1) && k !in template ==>
            Lookup(Parameters(after.value), k) == Lookup(Parameters(before.value), k))
  {
    ProvisioningKeepsTheRest(cfg, fold, req, m, token, store, newGroup, newConnection);
    ProvisionInStages(cfg, fold, req, m, token, store, newGroup, newConnection);
    var out := Provision(cfg, fold, req, m, token, store, newGroup, newConnection).1.mapping;
    SameCredentials(m, Named(out));
    assert ValuesFor(cfg, req, Named(out)) == ValuesShown(cfg, req, out);
    ForcedValues(cfg, req, Named(out));
  }

  // ---------- The group ----------

  // After every successful run the group that the mapping names is there; an existing group keeps
  // its name and parent where it has them, and a new one gets them from mapping and configuration.
  lemma GroupIsInPlace(cfg: Config, fold: Fold, req: Request, m: Mapping, token: string, store: Store,
                       newGroup: string, newConnection: string)
    requires AssignsFresh(store, newGroup, newConnection)
    requires Provision(cfg, fold, req, m, token, store, newGroup, newConnection).1.Done?
    ensures
      var (store', out) := Provision(cfg, fold, req, m, token, store, newGroup, newConnection);
      var before, after := Find(store.groups, out.mapping.groupIdentifier), Find(store'.groups, out.mapping.groupIdentifier);
      && after.Some? && Clean(after.value.kind) == "ORGANIZATIONAL"
      && (out.group == Created <==> before.None?)
      && (before.None? ==>
            && after.value == Group(newGroup, after.value.name, "ORGANIZATIONAL", cfg.parent, [])
            && (Identified(store.groups) ==> after.value.name == Clean(m.groupName)))
      && (before.Some? ==>
            && Clean(after.value.parent) == FirstNonblank(before.value.parent, cfg.parent)
            && (Clean(before.value.name) != "" ==> Clean(after.value.name) == Clean(before.value.name) == out.mapping.groupName))
  {
    ProvisionInStages(cfg, fold, req, m, token, store, newGroup, newConnection);
    GroupStage(cfg, fold, m, store, newGroup);
    var (store1, g) := UpsertGroup(cfg, fold, m, store, newGroup);
    ConnectionStageFrame(cfg, fold, req, WithGroup(m, g.value), store1, newConnection);
  }

  // No group without any identifier.
  ghost predicate Identified(groups: Items<Group>) {
    forall i | 0 <= i < |groups| :: FirstNonblank(groups[i].1.identifier, groups[i].0) != ""
  }

  lemma {:induction false} NothingFound(fold: Fold, wanted: seq<string>, groups: Items<Group>)
    requires Identified(groups) && ResolveGroup(fold, wanted, groups).0 == ""
    ensures ResolveGroup(fold, wanted, groups).1 == ""
  {
    if groups != [] {
      assert FirstNonblank(groups[0].1.identifier, groups[0].0) != "";
      NothingFound(fold, wanted, groups[1..]);
    }
  }

  // What the group stage makes of the record under the identifier that it returns.
  ghost predicate GroupKept(cfg: Config, m: Mapping, groups: Items<Group>, newId: string, u: Upsert, before: Option<Group>, after: Group) {
    && Clean(after.kind) == "ORGANIZATIONAL"
    && (u.action == Created <==> before.None?)
    && (before.None? ==>
          && after == Group(newId, after.name, "ORGANIZATIONAL", cfg.parent, [])
          && (Identified(groups) ==> after.name == Clean(m.groupName)))
    && (before.Some? ==>
          && Clean(after.parent) == FirstNonblank(before.value.parent, cfg.parent)
          && (Clean(before.value.name) != "" ==> Clean(after.name) == Clean(before.value.name) == u.name))
  }

  lemma GroupStage(cfg: Config, fold: Fold, m: Mapping, store: Store, newId: string)
    requires newId != "" && IsClean(newId) && Find(store.groups, newId).None?
    requires UpsertGroup(cfg, fold, m, store, newId).1.Ok?
    ensures
      var (store', u) := UpsertGroup(cfg, fold, m, store, newId);
      var before, after := Find(store.groups, u.value.identifier), Find(store'.groups, u.value.identifier);
      after.Some? && GroupKept(cfg, m, store.groups, newId, u.value, before, after.value)
  {
    GroupTargetIsClean(fold, m, store);
    var (id, name) := GroupTarget(fold, m, store);
    if id == "" {
      FindAfterPut(store.groups, newId, GroupPayload(cfg, name, NO_GROUP).(identifier := newId), newId);
      if Identified(store.groups) {
        NothingFound(fold, Wanted(fold, m.groupCandidates), store.groups);
      }
      assert IsClean("ORGANIZATIONAL");
    } else {
      var existing := Find(store.groups, id).value;
      RevisedGroupKept(cfg, m, store, newId, id, Or(Clean(existing.name), name), existing);
    }
  }

  lemma RevisedGroupKept(cfg: Config, m: Mapping, store: Store, newId: string, id: string, name: string, existing: Group)
    requires Find(store.groups, id) == Some(existing) && IsClean(name)
    requires Clean(existing.name) != "" ==> name == Clean(existing.name)
    ensures
      var (store', u) := RevisedGroup(cfg, store, id, name, existing);
      var after := Find(store'.groups, id);
      u.identifier == id && after.Some? && GroupKept(cfg, m, store.groups, newId, u, Some(existing), after.value)
  {
    FindAfterPut(store.groups, id, GroupPayload(cfg, name, existing), id);
    assert IsClean("ORGANIZATIONAL");
  }

  // ---------- Names ----------

  // A run never renames a connection; a new one is named by the mapping, or else after the host.
  lemma ConnectionIsNamed(cfg: Config, fold: Fold, req: Request, m: Mapping, token: string, store: Store,
                          newGroup: string, newConnection: string)
    requires AssignsFresh(store, newGroup, newConnection)
    requires Provision(cfg, fold, req, m, token, store, newGroup, newConnection).1.Done?
    ensures
      var out := Provision(cfg, fold, req, m, token, store, newGroup, newConnection).1;
      var before := Find(store.connections, out.mapping.connectionIdentifier);
      && (out.connection == Created <==> before.None?)
      && (out.mapping.targetHost, out.mapping.username, out.mapping.domain) == (m.targetHost, m.username, m.domain)
      && (before.Some? && Clean(before.value.name) != "" ==> out.mapping.connectionName == Clean(before.value.name))
      && (before.None? && AllIdentified(store.connections) ==>
            Clean(out.mapping.connectionName) == FirstNonblank(m.connectionName, req.hostname))
  {
    ProvisionInStages(cfg, fold, req, m, token, store, newGroup, newConnection);
    var (store1, g) := UpsertGroup(cfg, fold, m, store, newGroup);
    GroupIsSettled(cfg, fold, m, store, newGroup);
    NamedConnection(cfg, fold, req, WithGroup(m, g.value), store1, newConnection);
  }

  ghost predicate AllIdentified(connections: Items<Connection>) {
    forall i | 0 <= i < |connections| :: FirstNonblank(connections[i].1.identifier, connections[i].0) != ""
  }

  lemma {:induction false} NoConnectionFound(fold: Fold, wanted: seq<string>, parent: string, connections: Items<Connection>)
    requires AllIdentified(connections) && ResolveConnection(fold, wanted, parent, connections).0 == ""
    ensures ResolveConnection(fold, wanted, parent, connections).1 == ""
  {
    if connections != [] {
      assert FirstNonblank(connections[0].1.identifier, connections[0].0) != "";
      NoConnectionFound(fold, wanted, parent, connections[1..]);
    }
  }

  lemma NamedConnection(cfg: Config, fold: Fold, req: Request, m: Mapping, store: Store, newId: string)
    requires Find(store.connections, newId).None?
    requires UpsertConnection(cfg, fold, req, m, store, newId).1.Ok?
    ensures
      var u := UpsertConnection(cfg, fold, req, m, store, newId).1.value;
      var before := Find(store.connections, u.identifier);
      && (u.action == Created <==> before.None?)
      && (before.Some? && Clean(before.value.name) != "" ==> WithConnection(m, u).connectionName == Clean(before.value.name))
      && (before.None? && AllIdentified(store.connections) ==>
            Clean(WithConnection(m, u).connectionName) == FirstNonblank(m.connectionName, req.hostname))
  {
    var (id, name) := ConnectionTarget(fold, req, m, store);
    ConnectionTargetIsClean(fold, req, m, store);
    if id == "" {
      if AllIdentified(store.connections) {
        NoConnectionFound(fold, Wanted(fold, m.connectionCandidates), Clean(m.groupIdentifier), store.connections);
      }
    } else {
      UpsertRevises(cfg, fold, req, m, store, newId);
    }
  }

  // ---------- When a run succeeds ----------

  // A run is skipped unless provisioning and bridge are switched on; it needs credentials and a
  // token; and identifiers that the mapping gives must exist. Nothing else makes it fail.
  lemma ProvisioningSucceedsExactly(cfg: Config, fold: Fold, req: Request, m: Mapping, token: string, store: Store,
                                    newGroup: string, newConnection: string)
    requires Clean(m.groupIdentifier) != "" && Clean(m.connectionIdentifier) != ""
    ensures
      var out := Provision(cfg, fold, req, m, token, store, newGroup, newConnection).1;
      if !cfg.autoProvision || !cfg.bridgeEnabled then out == Skipped
      else if !cfg.hasCredentials then out == Failed(NoCredentials)
      else if Clean(token) == "" then out == Failed(NoToken)
      else if Find(store.groups, Clean(m.groupIdentifier)).None? then out == Failed(NotFound(Clean(m.groupIdentifier)))
      else if Find(store.connections, Clean(m.connectionIdentifier)).None? then out == Failed(NotFound(Clean(m.connectionIdentifier)))
      else out.Done? && out.mapping.groupIdentifier == Clean(m.groupIdentifier)
           && out.mapping.connectionIdentifier == Clean(m.connectionIdentifier)
  {
    GivenGroup(cfg, fold, m, store, newGroup);
    var (store1, g) := UpsertGroup(cfg, fold, m, store, newGroup);
    if g.Ok? {
      GivenConnection(cfg, fold, req, WithGroup(m, g.value), store1, newConnection);
    }
  }

  lemma GivenGroup(cfg: Config, fold: Fold, m: Mapping, store: Store, newId: string)
    requires Clean(m.groupIdentifier) != ""
    ensures
      var (id, (store', r)) := (Clean(m.groupIdentifier), UpsertGroup(cfg, fold, m, store, newId));
      && store'.connections == store.connections
      && (if Find(store.groups, id).None? then r == Err(NotFound(id)) else r.Ok? && r.value.identifier == id)
  {
  }

  lemma GivenConnection(cfg: Config, fold: Fold, req: Request, m: Mapping, store: Store, newId: string)
    requires Clean(m.connectionIdentifier) != ""
    ensures
      var (id, r) := (Clean(m.connectionIdentifier), UpsertConnection(cfg, fold, req, m, store, newId).1);
      if Find(store.connections, id).None? then r == Err(NotFound(id)) else r.Ok? && r.value.identifier == id
  {
  }

  // Without an identifier in the mapping, the first group that a candidate names is the one used, and
  // none is created.
  lemma NamedGroupIsUsed(cfg: Config, fold: Fold, req: Request, m: Mapping, token: string, store: Store,
                         newGroup: string, newConnection: string, i: nat)
    requires Provision(cfg, fold, req, m, token, store, newGroup, newConnection).1.Done?
    requires Clean(m.groupIdentifier) == "" && i < |store.groups|
    requires GroupNamed(fold, m.groupCandidates, store.groups, i)
    requires forall j | 0 <= j < i :: !GroupNamed(fold, m.groupCandidates, store.groups, j)
    requires FirstNonblank(store.groups[i].1.identifier, store.groups[i].0) != ""
    ensures
      var out := Provision(cfg, fold, req, m, token, store, newGroup, newConnection).1;
      out.group != Created && out.mapping.groupIdentifier == FirstNonblank(store.groups[i].1.identifier, store.groups[i].0)
  {
    ProvisionInStages(cfg, fold, req, m, token, store, newGroup, newConnection);
    FirstGroupIsFound(fold, m.groupCandidates, store.groups, i);
    NamedGroupIsTarget(cfg, fold, m, store, newGroup);
  }

  lemma NamedGroupIsTarget(cfg: Config, fold: Fold, m: Mapping, store: Store, newId: string)
    requires UpsertGroup(cfg, fold, m, store, newId).1.Ok?
    requires GroupTarget(fold, m, store).0 != ""
    ensures
      var u := UpsertGroup(cfg, fold, m, store, newId).1.value;
      u.action != Created && u.identifier == GroupTarget(fold, m, store).0
  {
  }

  // And the first connection under that group that a candidate names.
  lemma NamedConnectionIsUsed(cfg: Config, fold: Fold, req: Request, m: Mapping, token: string, store: Store,
                              newGroup: string, newConnection: string, i: nat)
    requires AssignsFresh(store, newGroup, newConnection)
    requires Provision(cfg, fold, req, m, token, store, newGroup, newConnection).1.Done?
    requires Clean(m.connectionIdentifier) == "" && i < |store.connections|
    requires
      var parent := Provision(cfg, fold, req, m, token, store, newGroup, newConnection).1.mapping.groupIdentifier;
      && ConnectionNamed(fold, m.connectionCandidates, parent, store.connections, i)
      && (forall j | 0 <= j < i :: !ConnectionNamed(fold, m.connectionCandidates, parent, store.connections, j))
    requires FirstNonblank(store.connections[i].1.identifier, store.connections[i].0) != ""
    ensures
      var out := Provision(cfg, fold, req, m, token, store, newGroup, newConnection).1;
      && out.connection != Created
      && out.mapping.connectionIdentifier == FirstNonblank(store.connections[i].1.identifier, store.connections[i].0)
  {
    ProvisionInStages(cfg, fold, req, m, token, store, newGroup, newConnection);
    GroupIsSettled(cfg, fold, m, store, newGroup);
    var parent := Provision(cfg, fold, req, m, token, store, newGroup, newConnection).1.mapping.groupIdentifier;
    FirstConnectionIsFound(fold, m.connectionCandidates, parent, store.connections, i);
    var (store1, g) := UpsertGroup(cfg, fold, m, store, newGroup);
    NamedConnectionIsTarget(cfg, fold, req, WithGroup(m, g.value), store1, newConnection);
  }

  lemma NamedConnectionIsTarget(cfg: Config, fold: Fold, req: Request, m: Mapping, store: Store, newId: string)
    requires UpsertConnection(cfg, fold, req, m, store, newId).1.Ok?
    requires ConnectionTarget(fold, req, m, store).0 != ""
    ensures
      var u := UpsertConnection(cfg, fold, req, m, store, newId).1.value;
      u.action != Created && u.identifier == ConnectionTarget(fold, req, m, store).0
  {
    UpsertRevises(cfg, fold, req, m, store, newId);
  }

  // A mapping without identifiers whose candidates match nothing always gets new records.
  lemma UnmatchedIsCreated(cfg: Config, fold: Fold, req: Request, m: Mapping, token: string, store: Store,
                           newGroup: string, newConnection: string)
    requires AssignsFresh(store, newGroup, newConnection)
    requires cfg.autoProvision && cfg.bridgeEnabled && cfg.hasCredentials && Clean(token) != ""
    requires Clean(m.groupIdentifier) == "" && Clean(m.connectionIdentifier) == ""
    requires ResolveGroup(fold, Wanted(fold, m.groupCandidates), store.groups).0 == ""
    requires ResolveConnection(fold, Wanted(fold, m.connectionCandidates), newGroup, store.connections).0 == ""
    ensures
      var out := Provision(cfg, fold, req, m, token, store, newGroup, newConnection).1;
      && out.Done? && out.group == Created && out.connection == Created
      && out.mapping.groupIdentifier == newGroup && out.mapping.connectionIdentifier == newConnection
  {
    GroupStageFrame(cfg, fold, m, store, newGroup);
    var (store1, g) := UpsertGroup(cfg, fold, m, store, newGroup);
    assert ConnectionTarget(fold, req, WithGroup(m, g.value), store1).0 == "";
  }
}
