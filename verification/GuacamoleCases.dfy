/** A configuration under which a second provisioning run is not a no-op. */
module GuacamoleCases {
  import opened Prelude
  import opened Text
  import opened PyDict
  import opened GuacamoleModel
  import opened GuacamoleTheory

  lemma CleanWords()
    ensures IsClean("rdp") && IsClean("3389") && IsClean("ROOT") && IsClean("port") && IsClean("4000")
    ensures IsClean("x") && IsClean("g") && IsClean("c")
  {
  }

  // The template names another port, but only for a connection with a password.
  function PortForPassword(v: TemplateValues): Params {
    if v.password != "" then [("port", "4000")] else []
  }

  function NoAttributes(v: TemplateValues): Params {
    []
  }

  function PortConfig(): Config {
    CleanWords();
    Config(true, true, true, "ROOT", "rdp", "3389", "", "", PortForPassword, NoAttributes)
  }

  const BLANK := Mapping("", "", "", "", "", "", "", [], [])
  const WITH_PASSWORD := Request("", "", "x", "")
  const WITHOUT_PASSWORD := Request("", "", "", "")

  lemma Templates(m: Mapping)
    ensures TemplateParameters(PortConfig(), WITH_PASSWORD, m) == map["port" := "4000"]
    ensures TemplateParameters(PortConfig(), WITHOUT_PASSWORD, m) == map[]
    ensures TemplateAttributes(PortConfig(), WITH_PASSWORD, m) == TemplateAttributes(PortConfig(), WITHOUT_PASSWORD, m) == map[]
  {
    CleanWords();
    var with, without := ValuesFor(PortConfig(), WITH_PASSWORD, m), ValuesFor(PortConfig(), WITHOUT_PASSWORD, m);
    assert with.password == "x" && without.password == "";
    var d: Params := [("port", "4000")];
    assert Put([], "port", "4000") == d && d[1..] == [];
    assert Normalize(d) == NormalizeInto(d, []) == d;
    assert ToMap(d) == ToMap(d[1..])["port" := "4000"];
    assert Normalize([]) == [];
  }

  lemma PortIsForced(req: Request, m: Mapping)
    ensures "port" in Forced(PortConfig(), req, m) && Forced(PortConfig(), req, m)["port"] == "3389"
  {
    var forced := ForcedParameters(PortConfig(), req, m);
    FindLooksUp(forced, "port");
    assert forced[1..][0] == ("port", "3389");
    assert Find(forced, "port") == Find(forced[1..], "port") == Some("3389");
  }

  // The first run, with a password, stores port 4000; the second, without one, has no template
  // value for the port, falls back to the forced 3389, and writes the connection again.
  lemma DroppingTheTemplatePortUpdates()
    ensures
      var (store1, out) := Provision(PortConfig(), s => s, WITH_PASSWORD, BLANK, "x", Store([], []), "g", "c");
      && out.Done?
      && Provision(PortConfig(), s => s, WITHOUT_PASSWORD, out.mapping, "x", store1, "g", "c").1
         == Done(out.mapping, Reused, Updated)
  {
    CleanWords();
    var fold: Fold := s => s;
    FirstRunCreatesBoth(PortConfig(), fold, WITH_PASSWORD, BLANK, "x", "g", "c");
    var (store1, out) := Provision(PortConfig(), fold, WITH_PASSWORD, BLANK, "x", Store([], []), "g", "c");
    Templates(Named(out.mapping));
    PortIsForced(WITH_PASSWORD, Named(out.mapping));
    ProvisioningConverges(PortConfig(), fold, WITH_PASSWORD, WITHOUT_PASSWORD, BLANK, "x", "x", Store([], []), "g", "c", "g", "c");
  }
}
