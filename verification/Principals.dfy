/** Lists of users and groups as an access policy shows them: one text field, one name per line. */
module Principals {
  import opened Prelude
  import opened Text
  import opened Splitting

  predicate IsSeparator(c: char) {
    c == '\n' || c == ',' || c == ';'
  }

  function Trimmed(parts: seq<string>): (r: seq<string>)
    ensures |r| == |parts|
  {
    seq(|parts|, i requires 0 <= i < |parts| => Trim(IsJsSpace, parts[i]))
  }

  function NonBlank(parts: seq<string>): seq<string> {
    if parts == [] then []
    else (if parts[0] != "" then [parts[0]] else []) + NonBlank(parts[1..])
  }

  // The values of a set in order of first insertion.
  function FirstOccurrences(parts: seq<string>): seq<string> {
    if parts == [] then []
    else
      var n := |parts| - 1;
      var front := FirstOccurrences(parts[..n]);
      if parts[n] in front then front else front + [parts[n]]
  }

  function SplitPrincipalList(value: string): seq<string> {
    FirstOccurrences(NonBlank(Trimmed(Split(IsSeparator, value))))
  }

  function JoinPrincipalList(values: seq<string>): string {
    Join('\n', values)
  }

  predicate IsPrincipal(s: string) {
    s != "" && IsTrimmed(IsJsSpace, s) && FreeOf(IsSeparator, s)
  }

  // Distinct names, none blank, none with a separator or with space around it.
  ghost predicate IsPrincipalList(values: seq<string>) {
    && (forall i | 0 <= i < |values| :: IsPrincipal(values[i]))
    && NoDuplicates(values)
  }

  lemma {:induction false} FirstOccurrencesAreDistinct(parts: seq<string>)
    ensures NoDuplicates(FirstOccurrences(parts))
    ensures forall part :: part in FirstOccurrences(parts) <==> part in parts
  {
    if parts != [] {
      var n := |parts| - 1;
      FirstOccurrencesAreDistinct(parts[..n]);
      assert parts == parts[..n] + [parts[n]];
      var front := FirstOccurrences(parts[..n]);
      forall i | 0 <= i < |front| ensures front[i] in front {}
    }
  }

  lemma {:induction false} DistinctIsKept(parts: seq<string>)
    requires NoDuplicates(parts)
    ensures FirstOccurrences(parts) == parts
  {
    if parts != [] {
      var n := |parts| - 1;
      DistinctIsKept(parts[..n]);
      assert parts == parts[..n] + [parts[n]];
    }
  }

  lemma {:induction false} NonBlankParts(parts: seq<string>)
    ensures forall part :: part in NonBlank(parts) <==> part != "" && part in parts
  {
    if parts != [] {
      NonBlankParts(parts[1..]);
      assert parts == [parts[0]] + parts[1..];
    }
  }

  lemma {:induction false} NonBlankIsKept(parts: seq<string>)
    requires "" !in parts
    ensures NonBlank(parts) == parts
  {
    if parts != [] {
      NonBlankIsKept(parts[1..]);
      assert parts == [parts[0]] + parts[1..];
    }
  }

  // Whatever was typed, splitting gives a proper list.
  lemma SplitGivesPrincipals(value: string)
    ensures IsPrincipalList(SplitPrincipalList(value))
  {
    var parts := Split(IsSeparator, value);
    var r := SplitPrincipalList(value);
    FirstOccurrencesAreDistinct(NonBlank(Trimmed(parts)));
    NonBlankParts(Trimmed(parts));
    forall i | 0 <= i < |r| ensures IsPrincipal(r[i]) {
      assert r[i] in Trimmed(parts);
      var k :| 0 <= k < |parts| && Trimmed(parts)[k] == r[i];
      SplitParts(IsSeparator, value, parts[k]);
    }
  }

  // The round trip returns exactly the proper lists, and only those.
  lemma RoundTrip(values: seq<string>)
    ensures SplitPrincipalList(JoinPrincipalList(values)) == values <==> IsPrincipalList(values)
  {
    SplitGivesPrincipals(JoinPrincipalList(values));
    if IsPrincipalList(values) {
      if values == [] {
        assert Trimmed([""]) == [""];
      } else {
        SplitJoin(IsSeparator, '\n', values);
        assert Trimmed(values) == values;
        NonBlankIsKept(values);
        DistinctIsKept(values);
      }
    }
  }

  // Any text without the three separators and without whitespace around it is a proper name.
  predicate IsPlain(s: string) {
    s != "" && Trim(IsJsSpace, s) == s && '\n' !in s && ',' !in s && ';' !in s
  }

  // Names may be typed on lines, or between commas or semicolons: the list read back is the names in
  // their order, of a repeated name the first place.
  lemma {:induction false} TypedNamesAreRead(values: seq<string>, glue: char)
    requires values != [] && glue in {'\n', ',', ';'} && forall v | v in values :: IsPlain(v)
    ensures SplitPrincipalList(Join(glue, values)) == FirstOccurrences(values)
    ensures NoDuplicates(values) ==> SplitPrincipalList(Join(glue, values)) == values
  {
    forall v | v in values ensures v != "" && FreeOf(IsSeparator, v) {
      assert IsPlain(v);
    }
    SplitJoin(IsSeparator, glue, values);
    forall i | 0 <= i < |values| ensures Trim(IsJsSpace, values[i]) == values[i] {
      assert IsPlain(values[i]);
    }
    assert Trimmed(values) == values;
    NonBlankIsKept(values);
    if NoDuplicates(values) {
      DistinctIsKept(values);
    }
  }

  // Typing one more name adds it at the end, unless it was there.
  lemma OneMoreName(values: seq<string>, name: string, glue: char)
    requires values != [] && glue in {'\n', ',', ';'} && IsPlain(name) && forall v | v in values :: IsPlain(v)
    ensures
      var list := SplitPrincipalList(Join(glue, values));
      SplitPrincipalList(Join(glue, values + [name])) == if name in values then list else list + [name]
  {
    TypedNamesAreRead(values, glue);
    TypedNamesAreRead(values + [name], glue);
    FirstOccurrencesAreDistinct(values);
    assert (values + [name])[..|values|] == values;
  }

  // Editing a list and saving it unchanged never changes it, for every text typed at first.
  lemma SplitJoinSplit(value: string)
    ensures SplitPrincipalList(JoinPrincipalList(SplitPrincipalList(value))) == SplitPrincipalList(value)
  {
    SplitGivesPrincipals(value);
    RoundTrip(SplitPrincipalList(value));
  }

  // Nothing that was typed is lost: the list names exactly the non-blank trimmed entries.
  lemma SplitNamesEveryEntry(value: string, name: string)
    ensures name in SplitPrincipalList(value) <==>
      name != "" && exists part :: part in Split(IsSeparator, value) && name == Trim(IsJsSpace, part)
  {
    var parts := Split(IsSeparator, value);
    FirstOccurrencesAreDistinct(NonBlank(Trimmed(parts)));
    NonBlankParts(Trimmed(parts));
    if name in Trimmed(parts) {
      var k :| 0 <= k < |parts| && Trimmed(parts)[k] == name;
      assert parts[k] in parts;
    }
    if part :| part in parts && name == Trim(IsJsSpace, part) {
      var k :| 0 <= k < |parts| && parts[k] == part;
      assert Trimmed(parts)[k] == name;
    }
  }
}
