/**
 A library that meets what the token theorems ask of JSON: it writes the header and any claims
 as bytes and reads them back. It is simple rather than short: claims become lists of numbers,
 and numbers are written in unary.
 */
module JsonWitness {
  import opened Prelude
  import opened JsonValues
  import opened Base64Url
  import opened AgentJwt

  // ---------- Numbers as bytes ----------

  function Unary(n: nat): seq<Byte> {
    if n == 0 then [0] else [1] + Unary(n - 1)
  }

  function WriteNumbers(ns: seq<nat>): seq<Byte> {
    if ns == [] then [] else Unary(ns[0]) + WriteNumbers(ns[1..])
  }

  // `n` counts the ones since the last zero.
  function ReadNumbers(bytes: seq<Byte>, n: nat): seq<nat>
    decreases bytes
  {
    if bytes == [] then []
    else if bytes[0] == 1 then ReadNumbers(bytes[1..], n + 1)
    else [n] + ReadNumbers(bytes[1..], 0)
  }

  lemma {:induction false} ReadUnary(k: nat, rest: seq<Byte>, n: nat)
    ensures ReadNumbers(Unary(k) + rest, n) == [n + k] + ReadNumbers(rest, 0)
    decreases k
  {
    if k == 0 {
      assert ([0] + rest)[1..] == rest;
    } else {
      assert (Unary(k) + rest)[1..] == Unary(k - 1) + rest;
      ReadUnary(k - 1, rest, n + 1);
    }
  }

  lemma {:induction false} NumbersRoundTrip(ns: seq<nat>)
    ensures ReadNumbers(WriteNumbers(ns), 0) == ns
    ensures ns != [] ==> WriteNumbers(ns) != []
  {
    if ns != [] {
      ReadUnary(ns[0], WriteNumbers(ns[1..]), 0);
      NumbersRoundTrip(ns[1..]);
    }
  }

  // ---------- Fields as numbers ----------

  type Field = seq<nat>

  // Each field after its length.
  function Pack(fields: seq<Field>): seq<nat> {
    if fields == [] then [] else [|fields[0]|] + fields[0] + Pack(fields[1..])
  }

  function Unpack(ns: seq<nat>): seq<Field> {
    if ns == [] || ns[0] >= |ns| then [] else [ns[1..ns[0] + 1]] + Unpack(ns[ns[0] + 1..])
  }

  lemma {:induction false} PackRoundTrip(fields: seq<Field>)
    ensures Unpack(Pack(fields)) == fields
  {
    if fields != [] {
      var ns := Pack(fields);
      assert ns[1..|fields[0]| + 1] == fields[0] && ns[|fields[0]| + 1..] == Pack(fields[1..]);
      PackRoundTrip(fields[1..]);
    }
  }

  function TextToField(s: string): Field {
    seq(|s|, i requires 0 <= i < |s| => s[i] as nat)
  }

  predicate IsCharCode(n: nat) {
    n < 0xD800 || 0xE000 <= n < 0x11_0000
  }

  function FieldToText(f: Field): string {
    seq(|f|, i requires 0 <= i < |f| => if IsCharCode(f[i]) then f[i] as char else ' ')
  }

  function IntToField(i: int): Field {
    if i >= 0 then [i] else [0, -i]
  }

  function FieldToInt(f: Field): int {
    if |f| == 1 then f[0] as int else if |f| == 2 then -(f[1] as int) else 0
  }

  lemma TextRoundTrip(s: string)
    ensures FieldToText(TextToField(s)) == s
  {
  }

  // ---------- Claims ----------

  function ClaimFields(c: Claims): seq<Field> {
    [TextToField(c.iss), TextToField(c.sub), TextToField(c.purpose), TextToField(c.jti),
     IntToField(c.iat), IntToField(c.ver), if c.exp.Some? then IntToField(c.exp.value) else []]
  }

  function FieldsToClaims(fs: seq<Field>): Option<ValidClaims> {
    if |fs| != 7 then None
    else
      var sub := FieldToText(fs[1]);
      Some(Claims(FieldToText(fs[0]), sub, sub, FieldToText(fs[2]), FieldToInt(fs[4]),
                  if fs[6] == [] then None else Some(FieldToInt(fs[6])), FieldToText(fs[3]), FieldToInt(fs[5])))
  }

  lemma ClaimsRoundTrip(c: ValidClaims)
    ensures FieldsToClaims(ClaimFields(c)) == Some(c)
  {
    TextRoundTrip(c.iss);
    TextRoundTrip(c.sub);
    TextRoundTrip(c.purpose);
    TextRoundTrip(c.jti);
  }

  function IntegerOf(v: Json): Option<int> {
    if v.Int? then Some(v.i) else None
  }

  // Only its reading of integers is used.
  function IntegerReader(): Library {
    Library((_, _) => [], _ => [], _ => None, IntegerOf)
  }

  // Everything but the claims is written as nothing and read as the header.
  function WriteJson(v: Json): seq<Byte> {
    match Parse(IntegerReader(), v, "")
    case None => []
    case Some(c) => WriteNumbers(Pack(ClaimFields(c)))
  }

  function ReadJson(bytes: seq<Byte>): Option<Json> {
    if bytes == [] then Some(HEADER)
    else
      match FieldsToClaims(Unpack(ReadNumbers(bytes, 0)))
      case None => None
      case Some(c) => Some(Dump(c))
  }

  // The hypothesis of the token theorems can be met, with any keyed hash.
  lemma SomeLibraryIsFaithful(mac: (string, string) -> seq<Byte>)
    ensures Faithful(Library(mac, WriteJson, ReadJson, IntegerOf))
  {
    forall c: ValidClaims ensures ReadJson(WriteJson(Dump(c))) == Some(Dump(c)) {
      WrittenClaims(c);
    }
    assert WriteJson(HEADER) == [] by {
      assert "sub" !in HEADER.fields;
    }
  }

  lemma WrittenClaims(c: ValidClaims)
    ensures ReadJson(WriteJson(Dump(c))) == Some(Dump(c))
  {
    ParseUndoesDump(IntegerReader(), c, "");
    assert WriteJson(Dump(c)) == WriteNumbers(Pack(ClaimFields(c)));
    assert Pack(ClaimFields(c)) != [];
    NumbersRoundTrip(Pack(ClaimFields(c)));
    PackRoundTrip(ClaimFields(c));
    ClaimsRoundTrip(c);
  }
}
