/**
 Provisioning one agent's connection group and connection in a remote Guacamole store:
 read what is there, build the desired record, compare, and write only on a difference.
 Case folding and template rendering are arbitrary functions; the remote server stores a
 written record verbatim and gives a posted one a fresh identifier.
 */
module GuacamoleModel {
  import opened Prelude
  import opened Text
  import opened PyDict

  type Params = Items<string>

  // A configuration value with its built-in default already applied.
  type Setting = s: string | IsClean(s) && s != "" witness "ROOT"

  type Fold = string -> string

  // ---------- String dictionaries ----------

  // Trims keys and values and drops items that become empty; a later item wins.
  function NormalizeInto(acc: Params, d: Params): Params
    decreases d
  {
    if d == [] then acc
    else
      var k, v := Clean(d[0].0), Clean(d[0].1);
      NormalizeInto(if k != "" && v != "" then Put(acc, k, v) else acc, d[1..])
  }

  function Normalize(d: Params): Params {
    NormalizeInto([], d)
  }

  // Trims keys and values of downloaded parameters, dropping only empty keys.
  function CleanInto(acc: Params, d: Params): Params
    decreases d
  {
    if d == [] then acc
    else
      var k := Clean(d[0].0);
      CleanInto(if k != "" then Put(acc, k, Clean(d[0].1)) else acc, d[1..])
  }

  function CleanParameters(d: Params): Params {
    CleanInto([], d)
  }

  // `{**a, **b}`
  function Update(a: Params, b: Params): Params
    decreases b
  {
    if b == [] then a else Update(Put(a, b[0].0, b[0].1), b[1..])
  }

  predicate SameItems(a: Params, b: Params) {
    ToMap(a) == ToMap(b)
  }

  // Case-insensitive removal of duplicates and blanks; the first spelling stays.
  function UniqueInto(fold: Fold, acc: seq<string>, seen: set<string>, values: seq<string>): seq<string>
    decreases values
  {
    if values == [] then acc
    else
      var v := Clean(values[0]);
      if v == "" || fold(v) in seen then UniqueInto(fold, acc, seen, values[1..])
      else UniqueInto(fold, acc + [v], seen + {fold(v)}, values[1..])
  }

  function UniqueStrings(fold: Fold, values: seq<string>): seq<string> {
    UniqueInto(fold, [], {}, values)
  }

  // ---------- The remote store ----------

  datatype Group = Group(identifier: string, name: string, kind: string, parent: string, attributes: Params)

  datatype Connection = Connection(
    identifier: string,
    name: string,
    protocol: string,
    parent: string,
    parameters: Params,
    attributes: Params)

  datatype Store = Store(groups: Items<Group>, connections: Items<Connection>)

  const NO_GROUP := Group("", "", "", "", [])
  const NO_CONNECTION := Connection("", "", "", "", [], [])
  const ORGANIZATIONAL := "ORGANIZATIONAL"

  // ---------- Configuration and mapping ----------

  datatype TemplateValues = TemplateValues(
    agentId: string, hostname: string, targetHost: string, username: string, domain: string,
    password: string, secret: string, groupName: string, connectionName: string)

  datatype Config = Config(
    autoProvision: bool,
    bridgeEnabled: bool,
    hasCredentials: bool,
    parent: Setting,
    protocol: Setting,
    rdpPort: Setting,
    defaultPassword: string,
    defaultSecret: string,
    parameterTemplate: TemplateValues -> Params,
    attributeTemplate: TemplateValues -> Params)

  datatype Mapping = Mapping(
    groupIdentifier: string, groupName: string,
    connectionIdentifier: string, connectionName: string,
    targetHost: string, username: string, domain: string,
    groupCandidates: seq<string>, connectionCandidates: seq<string>)

  // What is provisioned for, and the secrets supplied for this run only.
  datatype Request = Request(agentId: string, hostname: string, password: string, secret: string)

  function ValuesFor(cfg: Config, req: Request, m: Mapping): TemplateValues {
    TemplateValues(
      Clean(req.agentId),
      Clean(req.hostname),
      Or(Clean(m.targetHost), Clean(req.hostname)),
      Clean(m.username),
      Clean(m.domain),
      Or(Clean(req.password), cfg.defaultPassword),
      Or(Clean(req.secret), cfg.defaultSecret),
      Clean(m.groupName),
      Clean(m.connectionName))
  }

  // Position just after the last occurrence of `c`, or 0.
  function AfterLast(s: string, c: char): (n: nat)
    ensures n <= |s|
    ensures n > 0 ==> s[n - 1] == c
    ensures c !in s[n..]
  {
    if s == "" then 0 else if s[|s| - 1] == c then |s| else
      var n := AfterLast(s[..|s| - 1], c);
      assert s[n..] == s[..|s| - 1][n..] + [s[|s| - 1]];
      n
  }

  // A user name and a domain, from DOMAIN\user or DOMAIN/user when none is given apart.
  function SplitCredentials(m: Mapping): (string, string) {
    var domain, username := Clean(m.domain), Clean(m.username);
    var backslash, slash := AfterLast(username, '\\'), AfterLast(username, '/');
    if username == "" then ("", domain)
    else if domain != "" then
      (Clean(if backslash > 0 then username[backslash..] else username[slash..]), domain)
    else if backslash > 0 then (Clean(username[backslash..]), Clean(username[..backslash - 1]))
    else if slash > 0 then (Clean(username[slash..]), Clean(username[..slash - 1]))
    else (username, "")
  }

  // ---------- Desired records ----------

  function GroupPayload(cfg: Config, name: string, existing: Group): Group {
    Group(existing.identifier, Clean(name), ORGANIZATIONAL,
          Or(Clean(existing.parent), cfg.parent), Normalize(existing.attributes))
  }

  predicate GroupMatches(payload: Group, existing: Group) {
    && Clean(existing.name) == Clean(payload.name)
    && Clean(existing.kind) == Clean(payload.kind)
    && Clean(existing.parent) == Clean(payload.parent)
    && SameItems(Normalize(existing.attributes), Normalize(payload.attributes))
  }

  function Item(k: string, v: string, rest: Params): Params {
    [(k, v)] + rest
  }

  function OptionalItem(k: string, v: string, rest: Params): Params {
    if v != "" then Item(k, v, rest) else rest
  }

  // The parameters that every run sets itself.
  function ForcedParameters(cfg: Config, req: Request, m: Mapping): Params {
    var (user, domain) := SplitCredentials(m);
    Item("hostname", Or(Clean(m.targetHost), Clean(req.hostname)),
      Item("port", cfg.rdpPort,
        Item("resize-method", "display-update",
          Item("ignore-cert", "true",
            OptionalItem("username", user,
              OptionalItem("domain", domain, []))))))
  }

  function ConnectionPayload(cfg: Config, req: Request, m: Mapping, existing: Connection, parameters: Params): Connection {
    var values := ValuesFor(cfg, req, m);
    Connection(
      existing.identifier,
      Or(Clean(m.connectionName), Clean(req.hostname)),
      cfg.protocol,
      Or(Clean(m.groupIdentifier), cfg.parent),
      Update(Update(Normalize(parameters), ForcedParameters(cfg, req, m)), Normalize(cfg.parameterTemplate(values))),
      Update(Normalize(existing.attributes), Normalize(cfg.attributeTemplate(values))))
  }

  predicate ConnectionMatches(payload: Connection, existing: Connection, parameters: Params) {
    && Clean(existing.name) == Clean(payload.name)
    && Clean(existing.protocol) == Clean(payload.protocol)
    && Clean(existing.parent) == Clean(payload.parent)
    && SameItems(Normalize(existing.attributes), Normalize(payload.attributes))
    && SameItems(Normalize(parameters), Normalize(payload.parameters))
  }

  // ---------- Finding records by candidate names ----------

  function Wanted(fold: Fold, candidates: seq<string>): seq<string> {
    if candidates == [] then []
    else (if Clean(candidates[0]) != "" then [fold(Clean(candidates[0]))] else []) + Wanted(fold, candidates[1..])
  }

  function ItemIdentifier(key: string, identifier: string): string {
    Or(Clean(identifier), Clean(key))
  }

  predicate Answers(fold: Fold, wanted: seq<string>, key: string, identifier: string, name: string) {
    || fold(ItemIdentifier(key, identifier)) in wanted
    || fold(Clean(name)) in wanted
    || fold(Clean(key)) in wanted
  }

  function ResolveGroup(fold: Fold, wanted: seq<string>, groups: Items<Group>): (string, string) {
    if groups == [] then ("", "")
    else
      var (key, g) := groups[0];
      if Answers(fold, wanted, key, g.identifier, g.name) then (ItemIdentifier(key, g.identifier), Clean(g.name))
      else ResolveGroup(fold, wanted, groups[1..])
  }

  function ResolveConnection(fold: Fold, wanted: seq<string>, parent: string, connections: Items<Connection>): (string, string) {
    if connections == [] then ("", "")
    else
      var (key, c) := connections[0];
      if (parent == "" || Clean(c.parent) == parent) && Answers(fold, wanted, key, c.identifier, c.name) then
        (ItemIdentifier(key, c.identifier), Clean(c.name))
      else ResolveConnection(fold, wanted, parent, connections[1..])
  }

  // ---------- Upserts ----------

  datatype Action = Reused | Updated | Created

  datatype Error = NoCredentials | NoToken | NotFound(identifier: string)

  datatype Upsert = Upsert(identifier: string, name: string, action: Action)

  // The group's identifier as far as it is known, and its name so far.
  function GroupTarget(fold: Fold, m: Mapping, store: Store): (string, string) {
    var given := Clean(m.groupIdentifier);
    if given != "" then (given, Clean(m.groupName))
    else
      var (id, name) := ResolveGroup(fold, Wanted(fold, m.groupCandidates), store.groups);
      (id, Or(name, Clean(m.groupName)))
  }

  function UpsertGroup(cfg: Config, fold: Fold, m: Mapping, store: Store, newId: string): (Store, Result<Upsert, Error>) {
    var (id, name) := GroupTarget(fold, m, store);
    if id == "" then
      var payload := GroupPayload(cfg, name, NO_GROUP);
      (store.(groups := Put(store.groups, newId, payload.(identifier := newId))), Ok(Upsert(newId, name, Created)))
    else
      match Find(store.groups, id)
      case None => (store, Err(NotFound(id)))
      case Some(existing) =>
        var (store', u) := RevisedGroup(cfg, store, id, Or(Clean(existing.name), name), existing);
        (store', Ok(u))
  }

  // A group that is there is written back if the desired record differs from it.
  function RevisedGroup(cfg: Config, store: Store, id: string, name: string, existing: Group): (Store, Upsert) {
    var payload := GroupPayload(cfg, name, existing);
    if GroupMatches(payload, existing) then (store, Upsert(id, name, Reused))
    else (store.(groups := Put(store.groups, id, payload)), Upsert(id, name, Updated))
  }

  function ConnectionTarget(fold: Fold, req: Request, m: Mapping, store: Store): (string, string) {
    var given := Clean(m.connectionIdentifier);
    var name := Or(Clean(m.connectionName), Clean(req.hostname));
    if given != "" then (given, name)
    else
      var (id, found) := ResolveConnection(fold, Wanted(fold, m.connectionCandidates), Clean(m.groupIdentifier), store.connections);
      (id, Or(found, name))
  }

  function UpsertConnection(cfg: Config, fold: Fold, req: Request, m: Mapping, store: Store, newId: string)
    : (Store, Result<Upsert, Error>)
  {
    var (id, name) := ConnectionTarget(fold, req, m, store);
    if id == "" then
      var payload := ConnectionPayload(cfg, req, m.(connectionName := name), NO_CONNECTION, []);
      (store.(connections := Put(store.connections, newId, payload.(identifier := newId))),
       Ok(Upsert(newId, Or(name, payload.name), Created)))
    else
      match Find(store.connections, id)
      case None => (store, Err(NotFound(id)))
      case Some(existing) =>
        var (store', u) := RevisedConnection(cfg, req, m, store, id, Or(Clean(existing.name), name), existing);
        (store', Ok(u))
  }

  // The same for a connection that is there.
  function RevisedConnection(cfg: Config, req: Request, m: Mapping, store: Store, id: string, name: string, existing: Connection)
    : (Store, Upsert)
  {
    var parameters := CleanParameters(existing.parameters);
    var payload := ConnectionPayload(cfg, req, m.(connectionName := name), existing, parameters);
    var shown := Or(name, payload.name);
    if ConnectionMatches(payload, existing, parameters) then (store, Upsert(id, shown, Reused))
    else (store.(connections := Put(store.connections, id, payload)), Upsert(id, shown, Updated))
  }

  // ---------- One provisioning run ----------

  datatype Outcome =
    | Skipped
    | Failed(error: Error)
    | Done(mapping: Mapping, group: Action, connection: Action)

  function WithGroup(m: Mapping, g: Upsert): Mapping {
    m.(groupIdentifier := g.identifier, groupName := Or(g.name, m.groupName))
  }

  function WithConnection(m: Mapping, c: Upsert): Mapping {
    m.(connectionIdentifier := c.identifier, connectionName := Or(c.name, m.connectionName))
  }

  function WithCandidates(fold: Fold, req: Request, m: Mapping): Mapping {
    m.(groupCandidates := UniqueStrings(fold, m.groupCandidates + [m.groupName, req.agentId]),
       connectionCandidates :=
         UniqueStrings(fold, m.connectionCandidates + [m.connectionIdentifier, m.connectionName, req.hostname, req.agentId]))
  }

  // `token` is what the login returned; the two ids are the ones a POST would assign.
  function Provision(cfg: Config, fold: Fold, req: Request, m: Mapping, token: string, store: Store,
                     newGroup: string, newConnection: string): (Store, Outcome)
  {
    if !cfg.autoProvision || !cfg.bridgeEnabled then (store, Skipped)
    else if !cfg.hasCredentials then (store, Failed(NoCredentials))
    else if Clean(token) == "" then (store, Failed(NoToken))
    else
      var (store1, g) := UpsertGroup(cfg, fold, m, store, newGroup);
      match g
      case Err(error) => (store1, Failed(error))
      case Ok(u) => FinishProvision(cfg, fold, req, WithGroup(m, u), store1, u.action, newConnection)
  }

  function FinishProvision(cfg: Config, fold: Fold, req: Request, m: Mapping, store: Store, group: Action,
                           newConnection: string): (Store, Outcome)
  {
    var (store', c) := UpsertConnection(cfg, fold, req, m, store, newConnection);
    match c
    case Err(error) => (store', Failed(error))
    case Ok(u) => (store', Done(WithCandidates(fold, req, WithConnection(m, u)), group, u.action))
  }
}
