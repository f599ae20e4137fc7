/**
 Signed agent tokens: header, claims and signature as three base64url segments joined by
 dots. The keyed hash, the JSON reader and writer, and the coercion of numbers are arbitrary
 functions; `Faithful` states what is needed of the JSON pair.
 */
module AgentJwt {
  import opened Prelude
  import opened JsonValues
  import opened Base64Url
  import opened Splitting

  datatype Claims = Claims(iss: string, sub: string, agentId: string, purpose: string, iat: int, exp: Option<int>, jti: string, ver: int)

  // The claims model refuses to be built when the subject is not the agent.
  type ValidClaims = c: Claims | c.sub == c.agentId witness Claims("", "", "", "", 0, None, "", 0)

  datatype Library = Library(
    mac: (string, string) -> seq<Byte>,
    dumps: Json -> seq<Byte>,
    loads: seq<Byte> -> Option<Json>,
    toInt: Json -> Option<int>)

  datatype Error =
    | NoSecret | BadFormat | BadSegment | BadPayload | HeaderNotAnObject | BadAlgorithm
    | NonAsciiSignature | BadSignature | BadClaims
    | Expired | WrongAgent | WrongVersion | WrongPurpose | WrongIssuer

  const ALGORITHM := "HS256"
  const HEADER: Json := Obj(map["alg" := Str(ALGORITHM), "typ" := Str("JWT")])
  const AGENT_WS := "agent_ws"
  const ISSUER := "vm_agent_server"

  predicate IsDot(c: char) {
    c == '.'
  }

  function CountDots(s: string): nat {
    if s == "" then 0 else (if s[0] == '.' then 1 else 0) + CountDots(s[1..])
  }

  predicate LooksLikeJwt(token: string) {
    token != "" && CountDots(token) == 2
  }

  // ---------- Claims as JSON ----------

  function Dump(c: Claims): Json {
    var fields := map[
      "iss" := Str(c.iss), "sub" := Str(c.sub), "agent_id" := Str(c.agentId), "purpose" := Str(c.purpose),
      "iat" := Int(c.iat), "jti" := Str(c.jti), "ver" := Int(c.ver)];
    Obj(if c.exp.Some? then fields["exp" := Int(c.exp.value)] else fields)
  }

  function TextField(r: Record, key: string, default: Option<string>): Option<string> {
    if key !in r then default else if r[key].Str? then Some(r[key].s) else None
  }

  function IntField(lib: Library, r: Record, key: string, default: Option<int>): Option<int> {
    if key !in r then default else lib.toInt(r[key])
  }

  // A missing or null expiry is none; anything else must be a number.
  function ExpiryField(lib: Library, r: Record): Option<Option<int>> {
    if "exp" !in r || r["exp"] == Null then Some(None)
    else
      match lib.toInt(r["exp"])
      case None => None
      case Some(i) => Some(Some(i))
  }

  // `freshId` is the identifier that the model makes up when none is given.
  function Parse(lib: Library, payload: Json, freshId: string): Option<ValidClaims> {
    if !payload.Obj? then None
    else
      var r := payload.fields;
      var iss, sub, agentId := TextField(r, "iss", Some(ISSUER)), TextField(r, "sub", None), TextField(r, "agent_id", None);
      var purpose, jti := TextField(r, "purpose", Some(AGENT_WS)), TextField(r, "jti", Some(freshId));
      var iat, ver, exp := IntField(lib, r, "iat", None), IntField(lib, r, "ver", Some(1)), ExpiryField(lib, r);
      if iss.None? || sub.None? || agentId.None? || purpose.None? || jti.None? || iat.None? || ver.None? || exp.None? then None
      else if sub.value != agentId.value then None
      else Some(Claims(iss.value, sub.value, agentId.value, purpose.value, iat.value, exp.value, jti.value, ver.value))
  }

  // What is needed of the library: an integer is taken as it is, and reading back the header
  // and any claims that were written gives the same object.
  ghost predicate TakesIntegers(lib: Library) {
    forall i :: lib.toInt(Int(i)) == Some(i)
  }

  ghost predicate Faithful(lib: Library) {
    && TakesIntegers(lib)
    && lib.loads(lib.dumps(HEADER)) == Some(HEADER)
    && forall c: ValidClaims :: lib.loads(lib.dumps(Dump(c))) == Some(Dump(c))
  }

  // ---------- Signing and verifying ----------

  function Signature(lib: Library, secret: string, header: string, payload: string): string {
    Encode(lib.mac(secret, header + "." + payload))
  }

  function Sign(lib: Library, c: ValidClaims, secret: string): Result<string, Error> {
    if secret == "" then Err(NoSecret)
    else
      var header, payload := Encode(lib.dumps(HEADER)), Encode(lib.dumps(Dump(c)));
      Ok(header + "." + payload + "." + Signature(lib, secret, header, payload))
  }

  // An empty expectation of a text is no expectation.
  datatype Expected = Expected(agentId: string, version: Option<int>, purpose: string, issuer: string)

  const ANYTHING := Expected("", None, "", "")

  function ReadSegment(lib: Library, segment: string): Result<Json, Error> {
    match Decode(segment)
    case None => Err(BadSegment)
    case Some(bytes) =>
      match lib.loads(bytes)
      case None => Err(BadPayload)
      case Some(value) => Ok(value)
  }

  function Verify(lib: Library, token: string, secret: string, expected: Expected, now: int, freshId: string)
    : Result<ValidClaims, Error>
  {
    if secret == "" then Err(NoSecret)
    else
      var parts := Split(IsDot, token);
      if |parts| != 3 then Err(BadFormat)
      else
        match ReadSegment(lib, parts[0])
        case Err(e) => Err(e)
        case Ok(header) =>
          match ReadSegment(lib, parts[1])
          case Err(e) => Err(e)
          case Ok(payload) => VerifyRead(lib, header, payload, parts, secret, expected, now, freshId)
  }

  function VerifyRead(lib: Library, header: Json, payload: Json, parts: seq<string>, secret: string, expected: Expected,
                      now: int, freshId: string): Result<ValidClaims, Error>
    requires |parts| == 3
  {
    if !header.Obj? then Err(HeaderNotAnObject)
    else if GetField(header.fields, "alg", Null) != Str(ALGORITHM) then Err(BadAlgorithm)
    else if !IsAscii(parts[2]) then Err(NonAsciiSignature)
    else if parts[2] != Signature(lib, secret, parts[0], parts[1]) then Err(BadSignature)
    else
      match Parse(lib, payload, freshId)
      case None => Err(BadClaims)
      case Some(c) => Check(c, expected, now)
  }

  function Check(c: ValidClaims, expected: Expected, now: int): Result<ValidClaims, Error> {
    if c.exp.Some? && c.exp.value < now then Err(Expired)
    else if expected.agentId != "" && c.agentId != expected.agentId then Err(WrongAgent)
    else if expected.version.Some? && c.ver != expected.version.value then Err(WrongVersion)
    else if expected.purpose != "" && c.purpose != expected.purpose then Err(WrongPurpose)
    else if expected.issuer != "" && c.iss != expected.issuer then Err(WrongIssuer)
    else Ok(c)
  }

  function Issue(lib: Library, secret: string, agentId: string, issuer: string, purpose: string, version: int,
                 ttl: Option<int>, now: int, freshId: string): Result<string, Error>
  {
    Sign(lib, IssuedClaims(agentId, issuer, purpose, version, ttl, now, freshId), secret)
  }

  function IssuedClaims(agentId: string, issuer: string, purpose: string, version: int, ttl: Option<int>, now: int,
                        freshId: string): ValidClaims
  {
    var exp := if ttl.Some? && ttl.value > 0 then Some(now + ttl.value) else None;
    Claims(issuer, agentId, agentId, purpose, now, exp, freshId, version)
  }

  // ---------- Theorems ----------

  lemma {:induction false} DotsAndParts(s: string)
    ensures |Split(IsDot, s)| == CountDots(s) + 1
  {
    if s != "" {
      DotsAndParts(s[1..]);
    }
  }

  // Three dot-free segments are found again.
  lemma SplitToken(h: string, p: string, g: string)
    requires '.' !in h && '.' !in p && '.' !in g
    ensures Split(IsDot, h + "." + p + "." + g) == [h, p, g]
  {
    SplitAtFirst(IsDot, h, '.', p + "." + g);
    SplitAtFirst(IsDot, p, '.', g);
    SplitOfFree(IsDot, g);
    assert h + ['.'] + (p + "." + g) == h + "." + p + "." + g;
    assert [h] + ([p] + [g]) == [h, p, g];
  }

  lemma {:induction false} JoinedAgain(s: string)
    ensures Join('.', Split(IsDot, s)) == s
  {
    if s != "" {
      JoinedAgain(s[1..]);
      var rest := Split(IsDot, s[1..]);
      if s[0] == '.' {
        assert ([""] + rest)[1..] == rest;
        assert Join('.', [""] + rest) == "" + ['.'] + Join('.', rest);
      } else {
        var parts := [[s[0]] + rest[0]] + rest[1..];
        assert parts[1..] == rest[1..];
        assert Join('.', parts) == [s[0]] + Join('.', rest);
      }
    }
  }

  // A token names claims that were written out and signed by whoever knew the secret.
  lemma SignedTokenShape(lib: Library, c: ValidClaims, secret: string)
    requires secret != ""
    ensures
      var token := Sign(lib, c, secret).value;
      && Split(IsDot, token) == [Encode(lib.dumps(HEADER)), Encode(lib.dumps(Dump(c))),
                                 Signature(lib, secret, Encode(lib.dumps(HEADER)), Encode(lib.dumps(Dump(c))))]
      && LooksLikeJwt(token)
  {
    var header, payload := lib.dumps(HEADER), lib.dumps(Dump(c));
    var mac := lib.mac(secret, Encode(header) + "." + Encode(payload));
    EncodedShape(header);
    EncodedShape(payload);
    EncodedShape(mac);
    SplitToken(Encode(header), Encode(payload), Encode(mac));
    DotsAndParts(Sign(lib, c, secret).value);
  }

  lemma ParseUndoesDump(lib: Library, c: ValidClaims, freshId: string)
    requires TakesIntegers(lib)
    ensures Parse(lib, Dump(c), freshId) == Some(c)
  {
    var r := Dump(c).fields;
    assert TextField(r, "iss", Some(ISSUER)) == Some(c.iss) && TextField(r, "sub", None) == Some(c.sub);
    assert TextField(r, "agent_id", None) == Some(c.agentId) && TextField(r, "purpose", Some(AGENT_WS)) == Some(c.purpose);
    assert TextField(r, "jti", Some(freshId)) == Some(c.jti);
    assert IntField(lib, r, "iat", None) == Some(c.iat) && IntField(lib, r, "ver", Some(1)) == Some(c.ver);
    assert ExpiryField(lib, r) == Some(c.exp);
  }

  lemma WrittenSegment(lib: Library, value: Json)
    requires lib.loads(lib.dumps(value)) == Some(value)
    ensures ReadSegment(lib, Encode(lib.dumps(value))) == Ok(value)
  {
    RoundTrip(lib.dumps(value));
  }

  // Whatever is done with a signed token, the outcome under any secret: the signature
  // decides first, then only the claims and the clock.
  lemma VerifyOfSigned(lib: Library, c: ValidClaims, secret: string, secret': string, expected: Expected, now: int, freshId: string)
    requires Faithful(lib) && secret != "" && secret' != ""
    ensures
      var token := Sign(lib, c, secret).value;
      var input := Encode(lib.dumps(HEADER)) + "." + Encode(lib.dumps(Dump(c)));
      Verify(lib, token, secret', expected, now, freshId)
      == if lib.mac(secret', input) == lib.mac(secret, input) then Check(c, expected, now) else Err(BadSignature)
  {
    SignedTokenShape(lib, c, secret);
    WrittenSegment(lib, HEADER);
    WrittenSegment(lib, Dump(c));
    ParseUndoesDump(lib, c, freshId);
    var header, payload := Encode(lib.dumps(HEADER)), Encode(lib.dumps(Dump(c)));
    var input := header + "." + payload;
    EncodedShape(lib.mac(secret, input));
    EncodeIsInjective(lib.mac(secret, input), lib.mac(secret', input));
    HeaderNamesAlgorithm();
  }

  lemma HeaderNamesAlgorithm()
    ensures HEADER.Obj? && GetField(HEADER.fields, "alg", Null) == Str(ALGORITHM)
  {
  }

  ghost predicate Meets(c: Claims, expected: Expected) {
    && (expected.agentId == "" || c.agentId == expected.agentId)
    && (expected.version.None? || c.ver == expected.version.value)
    && (expected.purpose == "" || c.purpose == expected.purpose)
    && (expected.issuer == "" || c.iss == expected.issuer)
  }

  // Round trip: with the same secret the same claims come back, exactly as long as the token
  // has not expired and the claims meet what is expected. The last valid second is `exp` itself.
  lemma SignThenVerify(lib: Library, c: ValidClaims, secret: string, expected: Expected, now: int, freshId: string)
    requires Faithful(lib) && secret != ""
    ensures
      var r := Verify(lib, Sign(lib, c, secret).value, secret, expected, now, freshId);
      && (r.Ok? <==> (c.exp.None? || now <= c.exp.value) && Meets(c, expected))
      && (r.Ok? ==> r.value == c)
      && (c.exp.Some? && c.exp.value < now ==> r == Err(Expired))
  {
    VerifyOfSigned(lib, c, secret, secret, expected, now, freshId);
  }

  // A token issued for some seconds is good from the start to the end of them, and one
  // issued without a positive lifetime never runs out.
  lemma IssuedLifetime(lib: Library, secret: string, agentId: string, issuer: string, purpose: string, version: int,
                       ttl: Option<int>, issued: int, id: string, now: int, freshId: string)
    requires Faithful(lib) && secret != ""
    ensures
      var token := Issue(lib, secret, agentId, issuer, purpose, version, ttl, issued, id).value;
      Verify(lib, token, secret, Expected(agentId, Some(version), purpose, issuer), now, freshId)
      == if ttl.None? || ttl.value <= 0 || now <= issued + ttl.value
         then Ok(Claims(issuer, agentId, agentId, purpose, issued,
                        if ttl.Some? && ttl.value > 0 then Some(issued + ttl.value) else None, id, version))
         else Err(Expired)
  {
    var c := IssuedClaims(agentId, issuer, purpose, version, ttl, issued, id);
    VerifyOfSigned(lib, c, secret, secret, Expected(agentId, Some(version), purpose, issuer), now, freshId);
  }

  // Soundness: every accepted token is three segments; the first reads as a header that names
  // HS256, the last is the keyed hash of the first two under this very secret, and the result is
  // what the middle one says.
  lemma AcceptedIsSigned(lib: Library, token: string, secret: string, expected: Expected, now: int, freshId: string)
    requires Verify(lib, token, secret, expected, now, freshId).Ok?
    ensures LooksLikeJwt(token)
    ensures
      var c := Verify(lib, token, secret, expected, now, freshId).value;
      var parts := Split(IsDot, token);
      && |parts| == 3
      && token == parts[0] + "." + parts[1] + "." + Encode(lib.mac(secret, parts[0] + "." + parts[1]))
      && ReadsAsHeader(lib, parts[0])
      && ReadSegment(lib, parts[1]).Ok?
      && Parse(lib, ReadSegment(lib, parts[1]).value, freshId) == Some(c)
      && (c.exp.None? || now <= c.exp.value)
      && Meets(c, expected)
  {
    DotsAndParts(token);
    JoinedAgain(token);
    assert |Split(IsDot, token)| == 3;
    JoinThree(Split(IsDot, token));
  }

  // The segment reads as an object whose "alg" is "HS256".
  ghost predicate ReadsAsHeader(lib: Library, segment: string) {
    var r := ReadSegment(lib, segment);
    r.Ok? && r.value.Obj? && "alg" in r.value.fields && r.value.fields["alg"] == Str("HS256")
  }

  // And every such token is accepted, as long as it has not expired and says what is expected.
  lemma SignedIsAccepted(lib: Library, h: string, p: string, c: ValidClaims, secret: string, expected: Expected, now: int,
                         freshId: string)
    requires secret != "" && '.' !in h && '.' !in p && ReadsAsHeader(lib, h)
    requires ReadSegment(lib, p).Ok? && Parse(lib, ReadSegment(lib, p).value, freshId) == Some(c)
    requires (c.exp.None? || now <= c.exp.value) && Meets(c, expected)
    ensures Verify(lib, h + "." + p + "." + Encode(lib.mac(secret, h + "." + p)), secret, expected, now, freshId) == Ok(c)
  {
    var g := Encode(lib.mac(secret, h + "." + p));
    EncodedShape(lib.mac(secret, h + "." + p));
    SplitToken(h, p, g);
  }

  // What claims say under their names on the wire; some have defaults, and the subject is the agent.
  lemma ClaimsAreRead(lib: Library, payload: Json, freshId: string)
    requires Parse(lib, payload, freshId).Some?
    ensures payload.Obj?
    ensures
      var (r, c) := (payload.fields, Parse(lib, payload, freshId).value);
      && "sub" in r && r["sub"] == Str(c.agentId) && "agent_id" in r && r["agent_id"] == Str(c.agentId) && c.sub == c.agentId
      && (if "iss" in r then r["iss"] == Str(c.iss) else c.iss == "vm_agent_server")
      && (if "purpose" in r then r["purpose"] == Str(c.purpose) else c.purpose == "agent_ws")
      && (if "jti" in r then r["jti"] == Str(c.jti) else c.jti == freshId)
      && "iat" in r && lib.toInt(r["iat"]) == Some(c.iat)
      && (if "ver" in r then lib.toInt(r["ver"]) == Some(c.ver) else c.ver == 1)
      && (if "exp" in r && r["exp"] != Null then c.exp.Some? && lib.toInt(r["exp"]) == c.exp else c.exp.None?)
  {
  }

  lemma JoinThree(parts: seq<string>)
    requires |parts| == 3
    ensures Join('.', parts) == parts[0] + "." + parts[1] + "." + parts[2]
  {
    assert Join('.', parts[1..]) == parts[1] + "." + parts[2];
    assert parts[0] + "." + (parts[1] + "." + parts[2]) == parts[0] + "." + parts[1] + "." + parts[2];
  }

  // Hence the signature of an accepted token cannot be written in a second way.
  lemma SignatureIsNotMalleable(lib: Library, h: string, p: string, g: string, g': string, secret: string,
                                expected: Expected, now: int, freshId: string)
    requires '.' !in h && '.' !in p && '.' !in g && '.' !in g'
    requires Verify(lib, h + "." + p + "." + g, secret, expected, now, freshId).Ok?
    requires Verify(lib, h + "." + p + "." + g', secret, expected, now, freshId).Ok?
    ensures g == g'
  {
    SplitToken(h, p, g);
    SplitToken(h, p, g');
  }
}
