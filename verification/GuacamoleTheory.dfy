/** Convergence and frame of provisioning: a second run finds nothing left to write. */
module GuacamoleTheory {
  import opened Prelude
  import opened Text
  import opened PyDict
  import opened GuacamoleModel

  // ---------- Dictionaries as maps ----------

  ghost predicate TidyMap(m: map<string, string>) {
    forall k | k in m :: k != "" && IsClean(k) && IsClean(m[k])
  }

  ghost predicate Tidy(d: Params) {
    Distinct(d) && TidyMap(ToMap(d))
  }

  ghost predicate Full(m: map<string, string>) {
    forall k | k in m :: m[k] != ""
  }

  ghost function NonEmpty(m: map<string, string>): map<string, string> {
    map k | k in m && m[k] != "" :: m[k]
  }

  lemma PutKeepsTidy(d: Params, k: string, v: string)
    requires Tidy(d) && k != "" && IsClean(k) && IsClean(v)
    ensures Tidy(Put(d, k, v)) && ToMap(Put(d, k, v)) == ToMap(d)[k := v]
  {
    PutUpdates(d, k, v);
    PutKeepsDistinct(d, k, v);
  }

  lemma {:induction false} NormalizeIsTidy(acc: Params, d: Params)
    requires Tidy(acc) && Full(ToMap(acc))
    ensures Tidy(NormalizeInto(acc, d)) && Full(ToMap(NormalizeInto(acc, d)))
    decreases d
  {
    if d != [] {
      var k, v := Clean(d[0].0), Clean(d[0].1);
      if k != "" && v != "" {
        PutKeepsTidy(acc, k, v);
        NormalizeIsTidy(Put(acc, k, v), d[1..]);
      } else {
        NormalizeIsTidy(acc, d[1..]);
      }
    }
  }

  lemma {:induction false} NormalizeOfTidy(acc: Params, d: Params)
    requires Tidy(d) && ToMap(acc).Keys !! ToMap(d).Keys
    ensures ToMap(NormalizeInto(acc, d)) == ToMap(acc) + NonEmpty(ToMap(d))
    decreases d
  {
    if d != [] {
      var (k, v) := d[0];
      TailIsTidy(d);
      NonEmptyStep(ToMap(acc), ToMap(d[1..]), k, v);
      if v != "" {
        PutUpdates(acc, k, v);
        NormalizeOfTidy(Put(acc, k, v), d[1..]);
      } else {
        NormalizeOfTidy(acc, d[1..]);
      }
    } else {
      assert NonEmpty(ToMap(d)) == map[];
    }
  }

  lemma NonEmptyStep(m: map<string, string>, rest: map<string, string>, k: string, v: string)
    requires k !in rest
    ensures m + NonEmpty(rest[k := v]) == if v != "" then m[k := v] + NonEmpty(rest) else m + NonEmpty(rest)
  {
  }

  lemma TailIsTidy(d: Params)
    requires d != [] && Tidy(d)
    ensures Tidy(d[1..]) && d[0].0 !in ToMap(d[1..])
    ensures d[0].0 != "" && IsClean(d[0].0) && IsClean(d[0].1)
    ensures ToMap(d) == ToMap(d[1..])[d[0].0 := d[0].1]
  {
    forall k | k in ToMap(d[1..]) ensures k != "" && IsClean(k) && IsClean(ToMap(d[1..])[k]) {
      assert k in ToMap(d) && ToMap(d)[k] == ToMap(d[1..])[k];
    }
    assert d[0].0 in ToMap(d);
  }

  lemma {:induction false} CleanIsTidy(acc: Params, d: Params)
    requires Tidy(acc)
    ensures Tidy(CleanInto(acc, d))
    decreases d
  {
    if d != [] {
      var k := Clean(d[0].0);
      if k != "" {
        PutKeepsTidy(acc, k, Clean(d[0].1));
        CleanIsTidy(Put(acc, k, Clean(d[0].1)), d[1..]);
      } else {
        CleanIsTidy(acc, d[1..]);
      }
    }
  }

  lemma {:induction false} CleanOfTidy(acc: Params, d: Params)
    requires Tidy(d) && ToMap(acc).Keys !! ToMap(d).Keys
    ensures ToMap(CleanInto(acc, d)) == ToMap(acc) + ToMap(d)
    decreases d
  {
    if d != [] {
      var (k, v) := d[0];
      TailIsTidy(d);
      PutUpdates(acc, k, v);
      CleanOfTidy(Put(acc, k, v), d[1..]);
      UpdateStep(ToMap(acc), ToMap(d[1..]), k, v);
      assert CleanInto(acc, d) == CleanInto(Put(acc, k, v), d[1..]);
    } else {
      assert ToMap(acc) + ToMap(d) == ToMap(acc);
    }
  }

  lemma {:induction false} UpdateOfTidy(a: Params, b: Params)
    requires Tidy(a) && Tidy(b)
    ensures Tidy(Update(a, b)) && ToMap(Update(a, b)) == ToMap(a) + ToMap(b)
    decreases b
  {
    if b != [] {
      TailIsTidy(b);
      var (k, v) := b[0];
      PutKeepsTidy(a, k, v);
      UpdateOfTidy(Put(a, k, v), b[1..]);
      UpdateStep(ToMap(a), ToMap(b[1..]), k, v);
    }
  }

  lemma UpdateStep(m: map<string, string>, rest: map<string, string>, k: string, v: string)
    requires k !in rest
    ensures m[k := v] + rest == m + rest[k := v]
  {
  }

  lemma NormalizeTidy(d: Params)
    requires Tidy(d)
    ensures ToMap(Normalize(d)) == NonEmpty(ToMap(d))
  {
    NormalizeOfTidy([], d);
    EmptyPlus(NonEmpty(ToMap(d)));
  }

  lemma EmptyPlus(m: map<string, string>)
    ensures map[] + m == m
  {
  }

  lemma FullIsNonEmpty(m: map<string, string>)
    requires Full(m)
    ensures NonEmpty(m) == m
  {
  }

  // Normalising is idempotent, and keeps exactly the nonempty items of a tidy dictionary.
  lemma Normalized(d: Params)
    ensures Tidy(Normalize(d)) && Full(ToMap(Normalize(d)))
    ensures ToMap(Normalize(Normalize(d))) == ToMap(Normalize(d))
    ensures Tidy(d) ==> ToMap(Normalize(d)) == NonEmpty(ToMap(d))
  {
    NormalizeIsTidy([], d);
    NormalizeTidy(Normalize(d));
    FullIsNonEmpty(ToMap(Normalize(d)));
    if Tidy(d) {
      NormalizeTidy(d);
    }
  }

  lemma Downloaded(d: Params)
    ensures Tidy(CleanParameters(d))
    ensures Tidy(d) ==> ToMap(CleanParameters(d)) == ToMap(d)
  {
    CleanIsTidy([], d);
    if Tidy(d) {
      CleanOfTidy([], d);
    }
  }

  // ---------- What a dictionary has absorbed ----------

  // A record that already shows what forced values `f` and template `t` ask for.
  ghost predicate Absorbed(x: map<string, string>, f: map<string, string>, t: map<string, string>) {
    && Full(x)
    && (forall k | k in t :: k in x && x[k] == t[k])
    && (forall k | k in f && k !in t :: if f[k] == "" then k !in x else k in x && x[k] == f[k])
  }

  ghost predicate SubMap(t1: map<string, string>, t2: map<string, string>) {
    forall k | k in t2 :: k in t1 && t1[k] == t2[k]
  }

  // A later template that asks for no more, and drops no value that is forced differently.
  ghost predicate CarriesOver(t1: map<string, string>, t2: map<string, string>, f: map<string, string>) {
    SubMap(t1, t2) && forall k | k in t1 && k !in t2 && k in f :: f[k] == t1[k]
  }

  lemma WritingAbsorbs(x: map<string, string>, f: map<string, string>, t: map<string, string>)
    requires Full(t)
    ensures Absorbed(NonEmpty(x + f + t), f, t)
  {
  }

  lemma AbsorbedCarriesOver(x: map<string, string>, f: map<string, string>, t1: map<string, string>, t2: map<string, string>)
    requires Absorbed(x, f, t1) && SubMap(t1, t2)
    ensures NonEmpty(x + f + t2) == x <==> CarriesOver(t1, t2, f)
  {
    var w := NonEmpty(x + f + t2);
    if w == x {
      forall k | k in t1 && k !in t2 && k in f ensures f[k] == t1[k] {
        assert x[k] == t1[k];
        assert k in w;
      }
    }
    if CarriesOver(t1, t2, f) {
      forall k ensures k in w <==> k in x {}
    }
  }

  // ---------- The group ----------

  ghost predicate GroupSettled(cfg: Config, g: Group, name: string) {
    && Clean(g.name) == name
    && Clean(g.kind) == ORGANIZATIONAL
    && Clean(g.parent) != ""
  }

  // What the remote server promises about the identifiers it assigns.
  ghost predicate AssignsFresh(store: Store, newGroup: string, newConnection: string) {
    && newGroup != "" && IsClean(newGroup) && Find(store.groups, newGroup).None?
    && newConnection != "" && IsClean(newConnection) && Find(store.connections, newConnection).None?
  }

  lemma GroupTargetIsClean(fold: Fold, m: Mapping, store: Store)
    ensures IsClean(GroupTarget(fold, m, store).0) && IsClean(GroupTarget(fold, m, store).1)
    ensures GroupTarget(fold, m, store).1 == "" ==> Clean(m.groupName) == ""
  {
    ResolvedGroupIsClean(fold, Wanted(fold, m.groupCandidates), store.groups);
  }

  lemma {:induction false} ResolvedGroupIsClean(fold: Fold, wanted: seq<string>, groups: Items<Group>)
    ensures IsClean(ResolveGroup(fold, wanted, groups).0) && IsClean(ResolveGroup(fold, wanted, groups).1)
  {
    if groups != [] {
      ResolvedGroupIsClean(fold, wanted, groups[1..]);
    }
  }

  lemma {:induction false} ResolvedConnectionIsClean(fold: Fold, wanted: seq<string>, parent: string, connections: Items<Connection>)
    ensures IsClean(ResolveConnection(fold, wanted, parent, connections).0)
    ensures IsClean(ResolveConnection(fold, wanted, parent, connections).1)
  {
    if connections != [] {
      ResolvedConnectionIsClean(fold, wanted, parent, connections[1..]);
    }
  }

  // After the first stage the group exists under the returned identifier and is settled.
  lemma GroupIsSettled(cfg: Config, fold: Fold, m: Mapping, store: Store, newId: string)
    requires newId != "" && IsClean(newId)
    requires UpsertGroup(cfg, fold, m, store, newId).1.Ok?
    ensures
      var (store', r) := UpsertGroup(cfg, fold, m, store, newId);
      var u := r.value;
      && u.identifier != "" && IsClean(u.identifier)
      && Find(store'.groups, u.identifier).Some?
      && GroupSettled(cfg, Find(store'.groups, u.identifier).value, u.name)
      && (u.name == "" ==> Clean(m.groupName) == "")
      && store'.connections == store.connections
  {
    GroupTargetIsClean(fold, m, store);
    var (id, name) := GroupTarget(fold, m, store);
    if id == "" {
      var payload := GroupPayload(cfg, name, NO_GROUP).(identifier := newId);
      GroupPayloadIsSettled(cfg, name, NO_GROUP, newId);
      FindAfterPut(store.groups, newId, payload, newId);
    } else {
      var existing := Find(store.groups, id).value;
      var name := Or(Clean(existing.name), name);
      var payload := GroupPayload(cfg, name, existing);
      GroupPayloadIsSettled(cfg, name, existing, existing.identifier);
      FindAfterPut(store.groups, id, payload, id);
    }
  }

  lemma GroupPayloadIsSettled(cfg: Config, name: string, existing: Group, id: string)
    requires IsClean(name)
    ensures GroupSettled(cfg, GroupPayload(cfg, name, existing).(identifier := id), name)
    ensures GroupMatches(GroupPayload(cfg, name, existing), existing) ==> GroupSettled(cfg, existing, name)
  {
    var parent := Or(Clean(existing.parent), cfg.parent);
    assert IsClean(parent) && parent != "";
    assert IsClean(ORGANIZATIONAL);
  }

  // A settled group is reused and keeps its name.
  lemma SettledGroupIsReused(cfg: Config, fold: Fold, m: Mapping, store: Store, newId: string, u: Upsert)
    requires Clean(m.groupIdentifier) == u.identifier != ""
    requires Find(store.groups, u.identifier).Some?
    requires GroupSettled(cfg, Find(store.groups, u.identifier).value, u.name)
    requires u.name == "" ==> Clean(m.groupName) == ""
    ensures UpsertGroup(cfg, fold, m, store, newId) == (store, Ok(Upsert(u.identifier, u.name, Reused)))
  {
    SettledGroupMatches(cfg, Find(store.groups, u.identifier).value, u.name);
  }

  lemma SettledGroupMatches(cfg: Config, existing: Group, name: string)
    requires GroupSettled(cfg, existing, name)
    ensures GroupMatches(GroupPayload(cfg, name, existing), existing)
  {
    Normalized(existing.attributes);
  }

  // ---------- The connection ----------

  ghost function TemplateParameters(cfg: Config, req: Request, m: Mapping): map<string, string> {
    ToMap(Normalize(cfg.parameterTemplate(ValuesFor(cfg, req, m))))
  }

  ghost function TemplateAttributes(cfg: Config, req: Request, m: Mapping): map<string, string> {
    ToMap(Normalize(cfg.attributeTemplate(ValuesFor(cfg, req, m))))
  }

  ghost function Forced(cfg: Config, req: Request, m: Mapping): map<string, string> {
    ToMap(ForcedParameters(cfg, req, m))
  }

  ghost predicate ConnectionSettled(cfg: Config, req: Request, m: Mapping, c: Connection) {
    && Clean(c.name) == Or(Clean(m.connectionName), Clean(req.hostname))
    && Clean(c.protocol) == cfg.protocol
    && Clean(c.parent) == Or(Clean(m.groupIdentifier), cfg.parent)
    && Absorbed(ToMap(Normalize(CleanParameters(c.parameters))), Forced(cfg, req, m), TemplateParameters(cfg, req, m))
    && Absorbed(ToMap(Normalize(c.attributes)), map[], TemplateAttributes(cfg, req, m))
  }

  lemma ForcedIsTidy(cfg: Config, req: Request, m: Mapping)
    ensures Tidy(ForcedParameters(cfg, req, m))
  {
    CredentialsAreClean(m);
    var (user, domain) := SplitCredentials(m);
    var d5 := OptionalItem("domain", domain, []);
    var d4 := OptionalItem("username", user, d5);
    if domain != "" {
      TidyItem("domain", domain, []);
    }
    if user != "" {
      TidyItem("username", user, d5);
    }
    TidyHeader(cfg, Or(Clean(m.targetHost), Clean(req.hostname)), d4);
  }

  lemma TidyHeader(cfg: Config, host: string, d: Params)
    requires Tidy(d) && IsClean(host) && ToMap(d).Keys <= {"username", "domain"}
    ensures Tidy(Item("hostname", host,
      Item("port", cfg.rdpPort, Item("resize-method", "display-update", Item("ignore-cert", "true", d)))))
  {
    HeaderIsClean();
    TidyItem("ignore-cert", "true", d);
    var d3 := Item("ignore-cert", "true", d);
    TidyItem("resize-method", "display-update", d3);
    var d2 := Item("resize-method", "display-update", d3);
    assert ToMap(d2).Keys <= {"username", "domain", "ignore-cert", "resize-method"};
    TidyAddress(cfg, host, d2);
  }

  lemma TidyAddress(cfg: Config, host: string, d: Params)
    requires Tidy(d) && IsClean(host) && ToMap(d).Keys <= {"username", "domain", "ignore-cert", "resize-method"}
    ensures Tidy(Item("hostname", host, Item("port", cfg.rdpPort, d)))
  {
    HeaderIsClean();
    TidyItem("port", cfg.rdpPort, d);
    TidyItem("hostname", host, Item("port", cfg.rdpPort, d));
  }

  lemma HeaderIsClean()
    ensures IsClean("ignore-cert") && IsClean("true") && IsClean("resize-method") && IsClean("display-update")
    ensures IsClean("port") && IsClean("hostname")
  {
  }

  lemma CredentialsAreClean(m: Mapping)
    ensures IsClean(SplitCredentials(m).0) && IsClean(SplitCredentials(m).1)
  {
  }

  lemma TidyItem(k: string, v: string, d: Params)
    requires Tidy(d) && k !in ToMap(d) && k != "" && IsClean(k) && IsClean(v)
    ensures Tidy(Item(k, v, d)) && ToMap(Item(k, v, d)) == ToMap(d)[k := v]
  {
    assert Item(k, v, d)[1..] == d;
  }

  // The payload as a map: what was there, the forced values, then the template.
  lemma PayloadParameters(cfg: Config, req: Request, m: Mapping, existing: Connection, parameters: Params)
    ensures
      var p := ConnectionPayload(cfg, req, m, existing, parameters);
      && Tidy(p.parameters) && Tidy(p.attributes)
      && ToMap(p.parameters) == ToMap(Normalize(parameters)) + Forced(cfg, req, m) + TemplateParameters(cfg, req, m)
      && ToMap(p.attributes) == ToMap(Normalize(existing.attributes)) + map[] + TemplateAttributes(cfg, req, m)
  {
    var values := ValuesFor(cfg, req, m);
    Normalized(parameters);
    Normalized(existing.attributes);
    Normalized(cfg.parameterTemplate(values));
    Normalized(cfg.attributeTemplate(values));
    ForcedIsTidy(cfg, req, m);
    Layers(Normalize(parameters), ForcedParameters(cfg, req, m), Normalize(cfg.parameterTemplate(values)));
    Layers(Normalize(existing.attributes), [], Normalize(cfg.attributeTemplate(values)));
  }

  lemma Layers(base: Params, forced: Params, t: Params)
    requires Tidy(base) && Tidy(forced) && Tidy(t)
    ensures Tidy(Update(Update(base, forced), t))
    ensures ToMap(Update(Update(base, forced), t)) == ToMap(base) + ToMap(forced) + ToMap(t)
  {
    UpdateOfTidy(base, forced);
    UpdateOfTidy(Update(base, forced), t);
  }

  // Written parameters absorb what they were written from, also after a download.
  lemma WrittenAbsorbs(p: Params, x: map<string, string>, f: map<string, string>, t: map<string, string>)
    requires Tidy(p) && ToMap(p) == x + f + t && Full(t)
    ensures Absorbed(ToMap(Normalize(p)), f, t)
    ensures Absorbed(ToMap(Normalize(CleanParameters(p))), f, t)
  {
    Downloaded(p);
    Normalized(p);
    Normalized(CleanParameters(p));
    WritingAbsorbs(x, f, t);
  }

  // Parameters that equal their own desired form have absorbed it.
  lemma EqualAbsorbs(p: Params, x: map<string, string>, f: map<string, string>, t: map<string, string>)
    requires Tidy(p) && ToMap(p) == x + f + t && Full(t) && ToMap(Normalize(p)) == x
    ensures Absorbed(x, f, t)
  {
    Normalized(p);
    WritingAbsorbs(x, f, t);
  }

  // Parameters that have absorbed a request equal their desired form.
  lemma AbsorbedEquals(p: Params, x: map<string, string>, f: map<string, string>, t: map<string, string>, t': map<string, string>)
    requires Tidy(p) && ToMap(p) == x + f + t' && Absorbed(x, f, t) && SubMap(t, t')
    ensures ToMap(Normalize(p)) == x <==> CarriesOver(t, t', f)
  {
    Normalized(p);
    AbsorbedCarriesOver(x, f, t, t');
  }

  lemma TemplatesAreFull(cfg: Config, req: Request, m: Mapping)
    ensures Full(TemplateParameters(cfg, req, m)) && Full(TemplateAttributes(cfg, req, m))
  {
    Normalized(cfg.parameterTemplate(ValuesFor(cfg, req, m)));
    Normalized(cfg.attributeTemplate(ValuesFor(cfg, req, m)));
  }

  // A record that was written from a payload is settled.
  lemma WrittenIsSettled(cfg: Config, req: Request, m: Mapping, existing: Connection, parameters: Params, id: string)
    ensures ConnectionSettled(cfg, req, m, ConnectionPayload(cfg, req, m, existing, parameters).(identifier := id))
  {
    var p := ConnectionPayload(cfg, req, m, existing, parameters);
    PayloadParameters(cfg, req, m, existing, parameters);
    TemplatesAreFull(cfg, req, m);
    WrittenAbsorbs(p.parameters, ToMap(Normalize(parameters)), Forced(cfg, req, m), TemplateParameters(cfg, req, m));
    WrittenAbsorbs(p.attributes, ToMap(Normalize(existing.attributes)), map[], TemplateAttributes(cfg, req, m));
  }

  // A record that matches its payload is settled.
  lemma MatchingIsSettled(cfg: Config, req: Request, m: Mapping, existing: Connection)
    requires
      var parameters := CleanParameters(existing.parameters);
      ConnectionMatches(ConnectionPayload(cfg, req, m, existing, parameters), existing, parameters)
    ensures ConnectionSettled(cfg, req, m, existing)
  {
    var parameters := CleanParameters(existing.parameters);
    var p := ConnectionPayload(cfg, req, m, existing, parameters);
    PayloadParameters(cfg, req, m, existing, parameters);
    TemplatesAreFull(cfg, req, m);
    EqualAbsorbs(p.parameters, ToMap(Normalize(parameters)), Forced(cfg, req, m), TemplateParameters(cfg, req, m));
    EqualAbsorbs(p.attributes, ToMap(Normalize(existing.attributes)), map[], TemplateAttributes(cfg, req, m));
  }

  // Exactly when a settled record matches its payload, if the templates ask for no more than
  // before: every dropped value is either not forced or forced to the same value.
  lemma SettledMatches(cfg: Config, req: Request, req': Request, m: Mapping, existing: Connection)
    requires ConnectionSettled(cfg, req, m, existing)
    requires req'.agentId == req.agentId && req'.hostname == req.hostname
    requires SubMap(TemplateParameters(cfg, req, m), TemplateParameters(cfg, req', m))
    requires SubMap(TemplateAttributes(cfg, req, m), TemplateAttributes(cfg, req', m))
    ensures
      var parameters := CleanParameters(existing.parameters);
      ConnectionMatches(ConnectionPayload(cfg, req', m, existing, parameters), existing, parameters)
      <==> CarriesOver(TemplateParameters(cfg, req, m), TemplateParameters(cfg, req', m), Forced(cfg, req, m))
  {
    var parameters := CleanParameters(existing.parameters);
    var p := ConnectionPayload(cfg, req', m, existing, parameters);
    PayloadParameters(cfg, req', m, existing, parameters);
    assert Forced(cfg, req', m) == Forced(cfg, req, m);
    AbsorbedEquals(p.parameters, ToMap(Normalize(parameters)), Forced(cfg, req, m),
                   TemplateParameters(cfg, req, m), TemplateParameters(cfg, req', m));
    AbsorbedEquals(p.attributes, ToMap(Normalize(existing.attributes)), map[],
                   TemplateAttributes(cfg, req, m), TemplateAttributes(cfg, req', m));
  }

  lemma ConnectionTargetIsClean(fold: Fold, req: Request, m: Mapping, store: Store)
    ensures IsClean(ConnectionTarget(fold, req, m, store).0) && IsClean(ConnectionTarget(fold, req, m, store).1)
    ensures ConnectionTarget(fold, req, m, store).1 == "" ==> Clean(m.connectionName) == "" && Clean(req.hostname) == ""
  {
    ResolvedConnectionIsClean(fold, Wanted(fold, m.connectionCandidates), Clean(m.groupIdentifier), store.connections);
  }

  // After the second stage the connection exists under the returned identifier and is
  // settled for the mapping that carries its name.
  lemma ConnectionIsSettled(cfg: Config, fold: Fold, req: Request, m: Mapping, store: Store, newId: string)
    requires newId != "" && IsClean(newId)
    requires UpsertConnection(cfg, fold, req, m, store, newId).1.Ok?
    ensures
      var (store', r) := UpsertConnection(cfg, fold, req, m, store, newId);
      var u := r.value;
      && u.identifier != "" && IsClean(u.identifier) && IsClean(u.name)
      && Find(store'.connections, u.identifier).Some?
      && ConnectionSettled(cfg, req, m.(connectionName := u.name), Find(store'.connections, u.identifier).value)
      && (u.name == "" ==> Clean(m.connectionName) == "" && Clean(req.hostname) == "")
      && store'.groups == store.groups
  {
    ConnectionTargetIsClean(fold, req, m, store);
    var (id, name) := ConnectionTarget(fold, req, m, store);
    if id == "" {
      var named := m.(connectionName := name);
      WrittenIsSettled(cfg, req, named, NO_CONNECTION, [], newId);
      FindAfterPut(store.connections, newId,
        ConnectionPayload(cfg, req, named, NO_CONNECTION, []).(identifier := newId), newId);
    } else {
      var existing := Find(store.connections, id).value;
      var name := Or(Clean(existing.name), name);
      var named := m.(connectionName := name);
      var parameters := CleanParameters(existing.parameters);
      var payload := ConnectionPayload(cfg, req, named, existing, parameters);
      if ConnectionMatches(payload, existing, parameters) {
        MatchingIsSettled(cfg, req, named, existing);
      } else {
        WrittenIsSettled(cfg, req, named, existing, parameters, existing.identifier);
        assert payload.(identifier := existing.identifier) == payload;
        FindAfterPut(store.connections, id, payload, id);
      }
    }
  }

  // A settled connection is reused and keeps its name.
  lemma SettledConnectionIsReused(cfg: Config, fold: Fold, req: Request, req': Request, m: Mapping, store: Store,
                                  newId: string, u: Upsert)
    requires Clean(m.connectionIdentifier) == u.identifier != "" && IsClean(u.name)
    requires u.name == "" ==> Clean(m.connectionName) == "" && Clean(req.hostname) == ""
    requires u.name != "" ==> m.connectionName == u.name
    requires Find(store.connections, u.identifier).Some?
    requires ConnectionSettled(cfg, req, m.(connectionName := u.name), Find(store.connections, u.identifier).value)
    requires req'.agentId == req.agentId && req'.hostname == req.hostname
    requires
      var named := m.(connectionName := u.name);
      && SubMap(TemplateParameters(cfg, req, named), TemplateParameters(cfg, req', named))
      && SubMap(TemplateAttributes(cfg, req, named), TemplateAttributes(cfg, req', named))
    ensures
      var named := m.(connectionName := u.name);
      if CarriesOver(TemplateParameters(cfg, req, named), TemplateParameters(cfg, req', named), Forced(cfg, req, named)) then
        UpsertConnection(cfg, fold, req', m, store, newId) == (store, Ok(Upsert(u.identifier, u.name, Reused)))
      else
        UpsertConnection(cfg, fold, req', m, store, newId).1 == Ok(Upsert(u.identifier, u.name, Updated))
  {
    var existing := Find(store.connections, u.identifier).value;
    SettledMatches(cfg, req, req', m.(connectionName := u.name), existing);
    assert Or(Clean(existing.name), Or(Clean(m.connectionName), Clean(req'.hostname))) == u.name;
  }

  // ---------- Candidate lists ----------

  ghost predicate Unique(fold: Fold, values: seq<string>) {
    && (forall i | 0 <= i < |values| :: IsClean(values[i]) && values[i] != "")
    && (forall i, j | 0 <= i < j < |values| :: fold(values[i]) != fold(values[j]))
  }

  ghost function Folds(fold: Fold, values: seq<string>): set<string> {
    set i | 0 <= i < |values| :: fold(values[i])
  }

  ghost predicate Known(fold: Fold, v: string, seen: set<string>) {
    Clean(v) == "" || fold(Clean(v)) in seen
  }

  lemma {:induction false} UniqueIntoIsUnique(fold: Fold, acc: seq<string>, seen: set<string>, values: seq<string>)
    requires Unique(fold, acc) && seen == Folds(fold, acc)
    ensures
      var r := UniqueInto(fold, acc, seen, values);
      && Unique(fold, r) && seen <= Folds(fold, r)
      && forall v | v in values :: Known(fold, v, Folds(fold, r))
    decreases values
  {
    if values != [] {
      var v := Clean(values[0]);
      if v == "" || fold(v) in seen {
        UniqueIntoIsUnique(fold, acc, seen, values[1..]);
      } else {
        var acc' := acc + [v];
        forall x ensures x in Folds(fold, acc') <==> x in seen + {fold(v)} {
          if x in Folds(fold, acc) {
            var i :| 0 <= i < |acc| && fold(acc[i]) == x;
            assert acc'[i] == acc[i];
          }
          assert acc'[|acc|] == v;
        }
        assert Folds(fold, acc') == seen + {fold(v)};
        forall i, j | 0 <= i < j < |acc'| ensures fold(acc'[i]) != fold(acc'[j]) {
          if j == |acc| {
            assert fold(acc[i]) in Folds(fold, acc);
          }
        }
        UniqueIntoIsUnique(fold, acc', seen + {fold(v)}, values[1..]);
      }
      forall w | w in values ensures Known(fold, w, Folds(fold, UniqueInto(fold, acc, seen, values))) {
        if w != values[0] {
          assert w in values[1..];
        }
      }
    }
  }

  // Values already known change nothing.
  lemma {:induction false} KnownAddsNothing(fold: Fold, acc: seq<string>, seen: set<string>, values: seq<string>)
    requires forall v | v in values :: Known(fold, v, seen)
    ensures UniqueInto(fold, acc, seen, values) == acc
    decreases values
  {
    if values != [] {
      assert Known(fold, values[0], seen);
      forall v | v in values[1..] ensures Known(fold, v, seen) {
        assert v in values;
      }
      KnownAddsNothing(fold, acc, seen, values[1..]);
    }
  }

  lemma FoldsOfPrefix(fold: Fold, acc: seq<string>, values: seq<string>, x: string)
    requires x in Folds(fold, acc)
    ensures exists i :: 0 <= i < |acc| && fold((acc + values)[i]) == x
  {
    var i :| 0 <= i < |acc| && fold(acc[i]) == x;
    assert (acc + values)[i] == acc[i];
  }

  // A list that is unique already passes through unchanged.
  lemma {:induction false} UniquePassesThrough(fold: Fold, acc: seq<string>, seen: set<string>, values: seq<string>, more: seq<string>)
    requires Unique(fold, acc + values) && seen == Folds(fold, acc)
    ensures UniqueInto(fold, acc, seen, values + more) == UniqueInto(fold, acc + values, Folds(fold, acc + values), more)
    decreases values
  {
    if values == [] {
      assert values + more == more && acc + values == acc;
    } else {
      var v := values[0];
      var all := acc + values;
      assert all[|acc|] == v;
      assert Clean(v) == v && v != "";
      if fold(v) in seen {
        FoldsOfPrefix(fold, acc, values, fold(v));
        assert false;
      }
      assert (values + more)[1..] == values[1..] + more;
      assert acc + [v] + values[1..] == all;
      var acc' := acc + [v];
      forall x ensures x in Folds(fold, acc') <==> x in seen + {fold(v)} {
        if x in seen {
          var i :| 0 <= i < |acc| && fold(acc[i]) == x;
          assert acc'[i] == acc[i];
        }
        assert acc'[|acc|] == v;
      }
      assert Folds(fold, acc') == seen + {fold(v)};
      UniquePassesThrough(fold, acc', seen + {fold(v)}, values[1..], more);
    }
  }

  // Adding the same values to the deduplicated list once more gives the same list.
  lemma UniqueIsStable(fold: Fold, values: seq<string>, more: seq<string>, more': seq<string>)
    requires forall v | v in more' :: v in more
    ensures
      var once := UniqueStrings(fold, values + more);
      UniqueStrings(fold, once + more') == once
  {
    var once := UniqueStrings(fold, values + more);
    assert Folds(fold, []) == {};
    UniqueIntoIsUnique(fold, [], {}, values + more);
    assert [] + once == once;
    UniquePassesThrough(fold, [], {}, once, more');
    forall v | v in more' ensures Known(fold, v, Folds(fold, once)) {
      assert v in values + more;
    }
    KnownAddsNothing(fold, once, Folds(fold, once), more');
  }

  // ---------- Convergence ----------

  // The secrets of the second run render templates that ask for nothing new.
  ghost predicate AsksNoMore(cfg: Config, req: Request, req': Request, m: Mapping) {
    && req'.agentId == req.agentId && req'.hostname == req.hostname
    && SubMap(TemplateParameters(cfg, req, m), TemplateParameters(cfg, req', m))
    && SubMap(TemplateAttributes(cfg, req, m), TemplateAttributes(cfg, req', m))
  }

  ghost predicate DropsNothingForced(cfg: Config, req: Request, req': Request, m: Mapping) {
    CarriesOver(TemplateParameters(cfg, req, m), TemplateParameters(cfg, req', m), Forced(cfg, req, m))
  }

  // The mapping that a successful run returns, under its trimmed connection name.
  function Named(out: Mapping): Mapping {
    out.(connectionName := Clean(out.connectionName))
  }

  // Provisioning converges: whatever the mapping and whatever the remote store held, once a
  // run has succeeded, a second run on its results reuses the group and returns the very
  // same mapping; and it writes nothing and reuses the connection as well, exactly if the
  // second rendering drops no parameter that every run forces to another value.
  lemma ProvisioningConverges(cfg: Config, fold: Fold, req: Request, req': Request, m: Mapping, token: string, token': string,
                              store: Store, newGroup: string, newConnection: string, newGroup': string, newConnection': string)
    requires AssignsFresh(store, newGroup, newConnection) && Clean(token') != ""
    requires Provision(cfg, fold, req, m, token, store, newGroup, newConnection).1.Done?
    requires
      var out := Provision(cfg, fold, req, m, token, store, newGroup, newConnection).1.mapping;
      AsksNoMore(cfg, req, req', Named(out))
    ensures
      var (store1, out) := Provision(cfg, fold, req, m, token, store, newGroup, newConnection);
      var (store2, out') := Provision(cfg, fold, req', out.mapping, token', store1, newGroup', newConnection');
      if DropsNothingForced(cfg, req, req', Named(out.mapping)) then
        (store2, out') == (store1, Done(out.mapping, Reused, Reused))
      else
        out' == Done(out.mapping, Reused, Updated)
  {
    var (store1, g) := UpsertGroup(cfg, fold, m, store, newGroup);
    var m1 := WithGroup(m, g.value);
    var (store2, c) := UpsertConnection(cfg, fold, req, m1, store1, newConnection);
    ProvisionInStages(cfg, fold, req, m, token, store, newGroup, newConnection);
    StagesRepeat(cfg, fold, req, req', m, m1, store, store1, store2, newGroup, newConnection, newGroup', newConnection',
                 token', g.value, c.value);
  }

  lemma StagesRepeat(cfg: Config, fold: Fold, req: Request, req': Request, m: Mapping, m1: Mapping,
                     store: Store, store1: Store, store2: Store, newGroup: string, newConnection: string,
                     newGroup': string, newConnection': string, token': string, g: Upsert, c: Upsert)
    requires AssignsFresh(store, newGroup, newConnection) && Clean(token') != ""
    requires cfg.autoProvision && cfg.bridgeEnabled && cfg.hasCredentials
    requires UpsertGroup(cfg, fold, m, store, newGroup) == (store1, Ok(g)) && m1 == WithGroup(m, g)
    requires UpsertConnection(cfg, fold, req, m1, store1, newConnection) == (store2, Ok(c))
    requires
      var out := WithCandidates(fold, req, WithConnection(m1, c));
      AsksNoMore(cfg, req, req', Named(out))
    ensures
      var out := WithCandidates(fold, req, WithConnection(m1, c));
      var (store3, out') := Provision(cfg, fold, req', out, token', store2, newGroup', newConnection');
      if DropsNothingForced(cfg, req, req', Named(out)) then (store3, out') == (store2, Done(out, Reused, Reused))
      else out' == Done(out, Reused, Updated)
  {
    var out := WithCandidates(fold, req, WithConnection(m1, c));
    GroupIsSettled(cfg, fold, m, store, newGroup);
    ConnectionIsSettled(cfg, fold, req, m1, store1, newConnection);
    SettledGroupIsReused(cfg, fold, out, store2, newGroup', g);
    var g' := Upsert(g.identifier, g.name, Reused);
    assert WithGroup(out, g') == out;
    SecondConnectionStage(cfg, fold, req, req', m1, out, store2, newConnection', c);
    var (store3, r) := UpsertConnection(cfg, fold, req', out, store2, newConnection');
    var c' := r.value;
    assert WithConnection(out, c') == out;
    CandidatesAreStable(fold, req, req', WithConnection(m1, c));
    ProvisionFromStages(cfg, fold, req', out, token', store2, store3, newGroup', newConnection', g', c');
  }

  lemma CandidatesAreStable(fold: Fold, req: Request, req': Request, m: Mapping)
    requires req'.agentId == req.agentId && req'.hostname == req.hostname
    ensures WithCandidates(fold, req', WithCandidates(fold, req, m)) == WithCandidates(fold, req, m)
  {
    var groups := [m.groupName, req.agentId];
    var connections := [m.connectionIdentifier, m.connectionName, req.hostname, req.agentId];
    UniqueIsStable(fold, m.groupCandidates, groups, groups);
    UniqueIsStable(fold, m.connectionCandidates, connections, connections);
  }

  // A successful run is a successful group stage followed by a successful connection stage.
  lemma ProvisionInStages(cfg: Config, fold: Fold, req: Request, m: Mapping, token: string, store: Store,
                          newGroup: string, newConnection: string)
    requires Provision(cfg, fold, req, m, token, store, newGroup, newConnection).1.Done?
    ensures cfg.autoProvision && cfg.bridgeEnabled && cfg.hasCredentials
    ensures
      var (store1, g) := UpsertGroup(cfg, fold, m, store, newGroup);
      && g.Ok?
      && var m1 := WithGroup(m, g.value);
         var (store2, c) := UpsertConnection(cfg, fold, req, m1, store1, newConnection);
         && c.Ok?
         && Provision(cfg, fold, req, m, token, store, newGroup, newConnection)
              == (store2, Done(WithCandidates(fold, req, WithConnection(m1, c.value)), g.value.action, c.value.action))
  {
    var (store1, g) := UpsertGroup(cfg, fold, m, store, newGroup);
    assert Provision(cfg, fold, req, m, token, store, newGroup, newConnection)
        == FinishProvision(cfg, fold, req, WithGroup(m, g.value), store1, g.value.action, newConnection);
    FinishInStages(cfg, fold, req, WithGroup(m, g.value), store1, g.value.action, newConnection);
  }

  lemma FinishInStages(cfg: Config, fold: Fold, req: Request, m: Mapping, store: Store, group: Action, newConnection: string)
    requires FinishProvision(cfg, fold, req, m, store, group, newConnection).1.Done?
    ensures
      var (store', c) := UpsertConnection(cfg, fold, req, m, store, newConnection);
      && c.Ok?
      && FinishProvision(cfg, fold, req, m, store, group, newConnection)
           == (store', Done(WithCandidates(fold, req, WithConnection(m, c.value)), group, c.value.action))
  {
  }

  lemma ProvisionFromStages(cfg: Config, fold: Fold, req: Request, m: Mapping, token: string, store: Store,
                            store': Store, newGroup: string, newConnection: string, g: Upsert, c: Upsert)
    requires cfg.autoProvision && cfg.bridgeEnabled && cfg.hasCredentials && Clean(token) != ""
    requires UpsertGroup(cfg, fold, m, store, newGroup) == (store, Ok(g)) && WithGroup(m, g) == m
    requires UpsertConnection(cfg, fold, req, m, store, newConnection) == (store', Ok(c)) && WithConnection(m, c) == m
    requires WithCandidates(fold, req, m) == m
    ensures Provision(cfg, fold, req, m, token, store, newGroup, newConnection) == (store', Done(m, g.action, c.action))
  {
  }

  lemma SecondConnectionStage(cfg: Config, fold: Fold, req: Request, req': Request, m1: Mapping, out: Mapping, store: Store,
                              newId: string, u: Upsert)
    requires u.identifier != "" && IsClean(u.identifier) && IsClean(u.name)
    requires u.name == "" ==> Clean(m1.connectionName) == "" && Clean(req.hostname) == ""
    requires out == WithCandidates(fold, req, WithConnection(m1, u))
    requires Find(store.connections, u.identifier).Some?
    requires ConnectionSettled(cfg, req, m1.(connectionName := u.name), Find(store.connections, u.identifier).value)
    requires AsksNoMore(cfg, req, req', Named(out))
    ensures
      if DropsNothingForced(cfg, req, req', Named(out)) then
        UpsertConnection(cfg, fold, req', out, store, newId) == (store, Ok(Upsert(u.identifier, u.name, Reused)))
      else
        UpsertConnection(cfg, fold, req', out, store, newId).1 == Ok(Upsert(u.identifier, u.name, Updated))
  {
    var named, named' := m1.(connectionName := u.name), out.(connectionName := u.name);
    assert Clean(out.connectionName) == u.name;
    OnlyNamesMatter(cfg, req, named, named');
    var existing := Find(store.connections, u.identifier).value;
    assert ConnectionSettled(cfg, req, named', existing);
    SettledConnectionIsReused(cfg, fold, req, req', out, store, newId, u);
  }

  // The desired connection does not depend on candidates or on the connection's identifier.
  lemma OnlyNamesMatter(cfg: Config, req: Request, m: Mapping, m': Mapping)
    requires m'.targetHost == m.targetHost && m'.username == m.username && m'.domain == m.domain
    requires m'.groupName == m.groupName && m'.connectionName == m.connectionName
    ensures ValuesFor(cfg, req, m') == ValuesFor(cfg, req, m)
    ensures Forced(cfg, req, m') == Forced(cfg, req, m)
    ensures TemplateParameters(cfg, req, m') == TemplateParameters(cfg, req, m)
    ensures TemplateAttributes(cfg, req, m') == TemplateAttributes(cfg, req, m)
  {
    assert SplitCredentials(m') == SplitCredentials(m);
    assert ForcedParameters(cfg, req, m') == ForcedParameters(cfg, req, m);
    assert ValuesFor(cfg, req, m') == ValuesFor(cfg, req, m);
  }

  // The same request again, in particular: no condition on mapping, templates or store.
  lemma ProvisioningIsIdempotent(cfg: Config, fold: Fold, req: Request, m: Mapping, token: string, store: Store,
                                 newGroup: string, newConnection: string, newGroup': string, newConnection': string)
    requires AssignsFresh(store, newGroup, newConnection)
    requires Provision(cfg, fold, req, m, token, store, newGroup, newConnection).1.Done?
    ensures
      var (store1, out) := Provision(cfg, fold, req, m, token, store, newGroup, newConnection);
      Provision(cfg, fold, req, out.mapping, token, store1, newGroup', newConnection')
        == (store1, Done(out.mapping, Reused, Reused))
  {
    ProvisioningConverges(cfg, fold, req, req, m, token, token, store, newGroup, newConnection, newGroup', newConnection');
  }

  // ---------- Frame ----------

  // At most one group and one connection change, and the action says whether they did.
  ghost predicate ChangesOnly<V>(before: Items<V>, after: Items<V>, id: string) {
    forall k | k != id :: Find(after, k) == Find(before, k)
  }

  lemma PutChangesOnly<V>(d: Items<V>, id: string, v: V)
    ensures ChangesOnly(d, Put(d, id, v), id)
  {
    forall k | k != id ensures Find(Put(d, id, v), k) == Find(d, k) {
      FindAfterPut(d, id, v, k);
    }
  }

  lemma GroupStageFrame(cfg: Config, fold: Fold, m: Mapping, store: Store, newId: string)
    ensures
      var (store', r) := UpsertGroup(cfg, fold, m, store, newId);
      && store'.connections == store.connections
      && (r.Err? || r.value.action == Reused ==> store' == store)
      && (r.Ok? ==> ChangesOnly(store.groups, store'.groups, r.value.identifier))
  {
    var (id, name) := GroupTarget(fold, m, store);
    if id == "" {
      PutChangesOnly(store.groups, newId, GroupPayload(cfg, name, NO_GROUP).(identifier := newId));
    } else if Find(store.groups, id).Some? {
      var existing := Find(store.groups, id).value;
      PutChangesOnly(store.groups, id, GroupPayload(cfg, Or(Clean(existing.name), name), existing));
    }
  }

  lemma ConnectionStageFrame(cfg: Config, fold: Fold, req: Request, m: Mapping, store: Store, newId: string)
    ensures
      var (store', r) := UpsertConnection(cfg, fold, req, m, store, newId);
      && store'.groups == store.groups
      && (r.Err? || r.value.action == Reused ==> store' == store)
      && (r.Ok? ==> ChangesOnly(store.connections, store'.connections, r.value.identifier))
  {
    var (id, name) := ConnectionTarget(fold, req, m, store);
    if id == "" {
      PutChangesOnly(store.connections, newId,
        ConnectionPayload(cfg, req, m.(connectionName := name), NO_CONNECTION, []).(identifier := newId));
    } else if Find(store.connections, id).Some? {
      var existing := Find(store.connections, id).value;
      PutChangesOnly(store.connections, id,
        ConnectionPayload(cfg, req, m.(connectionName := Or(Clean(existing.name), name)), existing, CleanParameters(existing.parameters)));
    }
  }

  // Every run, also one that fails half way, leaves all other remote records alone.
  lemma ProvisioningFrame(cfg: Config, fold: Fold, req: Request, m: Mapping, token: string, store: Store,
                          newGroup: string, newConnection: string)
    ensures
      var (store', out) := Provision(cfg, fold, req, m, token, store, newGroup, newConnection);
      && (out.Skipped? ==> store' == store)
      && (out.Failed? ==> store'.connections == store.connections && exists id :: ChangesOnly(store.groups, store'.groups, id))
      && (out.Done? ==>
            && ChangesOnly(store.groups, store'.groups, out.mapping.groupIdentifier)
            && ChangesOnly(store.connections, store'.connections, out.mapping.connectionIdentifier)
            && (out.group == Reused ==> store'.groups == store.groups)
            && (out.connection == Reused ==> store'.connections == store.connections))
  {
    GroupStageFrame(cfg, fold, m, store, newGroup);
    var (store1, g) := UpsertGroup(cfg, fold, m, store, newGroup);
    assert ChangesOnly(store.groups, store.groups, "");
    if g.Ok? {
      FinishFrame(cfg, fold, req, WithGroup(m, g.value), store1, g.value.action, newConnection);
    }
  }

  lemma FinishFrame(cfg: Config, fold: Fold, req: Request, m: Mapping, store: Store, group: Action, newConnection: string)
    ensures
      var (store', out) := FinishProvision(cfg, fold, req, m, store, group, newConnection);
      && !out.Skipped?
      && store'.groups == store.groups
      && (out.Failed? ==> store' == store)
      && (out.Done? ==>
            && out.group == group && out.mapping.groupIdentifier == m.groupIdentifier
            && ChangesOnly(store.connections, store'.connections, out.mapping.connectionIdentifier)
            && (out.connection == Reused ==> store' == store))
  {
    ConnectionStageFrame(cfg, fold, req, m, store, newConnection);
  }

  // An updated connection keeps every nonempty parameter and attribute that it had, unless
  // the run forces that parameter or the rendered template gives it a value.
  lemma UpdateKeepsWhatWasThere(cfg: Config, req: Request, m: Mapping, existing: Connection, k: string)
    ensures
      var parameters := CleanParameters(existing.parameters);
      var p := ConnectionPayload(cfg, req, m, existing, parameters);
      var had, held := ToMap(Normalize(parameters)), ToMap(Normalize(existing.attributes));
      && (k in had && k !in Forced(cfg, req, m) && k !in TemplateParameters(cfg, req, m) ==>
            k in ToMap(p.parameters) && ToMap(p.parameters)[k] == had[k])
      && (k in held && k !in TemplateAttributes(cfg, req, m) ==>
            k in ToMap(p.attributes) && ToMap(p.attributes)[k] == held[k])
      && (k in ToMap(p.parameters) ==> k in had || k in Forced(cfg, req, m) || k in TemplateParameters(cfg, req, m))
      && (k in ToMap(p.attributes) ==> k in held || k in TemplateAttributes(cfg, req, m))
  {
    PayloadParameters(cfg, req, m, existing, CleanParameters(existing.parameters));
  }

  // ---------- Single results ----------

  // A qualified user name is taken apart at its last backslash, or else at its last slash; a
  // domain given apart wins.
  lemma QualifiedNameSplits(m: Mapping, domain: string, user: string, separator: char)
    requires separator == '\\' || (separator == '/' && '\\' !in domain + user)
    requires separator !in user && Clean(m.username) == domain + [separator] + user
    ensures SplitCredentials(m) == (Clean(user), if Clean(m.domain) != "" then Clean(m.domain) else Clean(domain))
  {
    var s := Clean(m.username);
    LastSeparator(domain, separator, user);
    assert s[|domain| + 1..] == user && s[..|domain|] == domain;
    if separator == '/' {
      assert '\\' !in s;
      assert AfterLast(s, '\\') == 0;
    }
  }

  // A name without either stays whole.
  lemma PlainNameSplits(m: Mapping)
    requires '\\' !in m.username && '/' !in m.username
    ensures SplitCredentials(m) == (Clean(m.username), Clean(m.domain))
  {
    var s := Clean(m.username);
    assert AfterLast(s, '\\') == 0 && AfterLast(s, '/') == 0;
    assert s[0..] == s;
  }

  lemma {:induction false} LastSeparator(before: string, c: char, after: string)
    requires c !in after
    ensures AfterLast(before + [c] + after, c) == |before| + 1
  {
    var s := before + [c] + after;
    if after == "" {
      assert s[|s| - 1] == c;
    } else {
      LastSeparator(before, c, after[..|after| - 1]);
      assert s[..|s| - 1] == before + [c] + after[..|after| - 1];
      assert s[|s| - 1] == after[|after| - 1];
    }
  }

  // A first run on an empty store creates a group and, under it, a connection.
  lemma FirstRunCreatesBoth(cfg: Config, fold: Fold, req: Request, m: Mapping, token: string, newGroup: string, newConnection: string)
    requires cfg.autoProvision && cfg.bridgeEnabled && cfg.hasCredentials && Clean(token) != ""
    requires Clean(m.groupIdentifier) == "" && Clean(m.connectionIdentifier) == ""
    requires AssignsFresh(Store([], []), newGroup, newConnection)
    ensures
      var (store, outcome) := Provision(cfg, fold, req, m, token, Store([], []), newGroup, newConnection);
      && outcome.Done? && outcome.group == Created && outcome.connection == Created
      && outcome.mapping.groupIdentifier == newGroup && outcome.mapping.connectionIdentifier == newConnection
      && Find(store.groups, newGroup).Some?
      && Find(store.connections, newConnection).Some?
      && Find(store.connections, newConnection).value.parent == newGroup
  {
    var empty := Store([], []);
    var (store1, g) := UpsertGroup(cfg, fold, m, empty, newGroup);
    assert ResolveGroup(fold, Wanted(fold, m.groupCandidates), []) == ("", "");
    var m1 := WithGroup(m, g.value);
    assert store1.connections == [] && m1.connectionIdentifier == m.connectionIdentifier && m1.groupIdentifier == newGroup;
    assert ConnectionTarget(fold, req, m1, store1).0 == "";
  }
}
