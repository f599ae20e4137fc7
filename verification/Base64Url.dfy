/**
 Base64url without padding (section 5 of RFC 4648, section 2 of RFC 7515), as the agent
 tokens use it: the encoder strips the padding, the decoder puts it back and then reads the
 characters one by one the way the Python library does, skipping what is not in the alphabet.
 */
module Base64Url {
  import opened Prelude

  type Byte = x: int | 0 <= x < 256
  type Sextet = x: int | 0 <= x < 64

  // ---------- Encoding ----------

  function SextetChar(x: Sextet): (c: char)
    ensures c != '=' && c != '.' && (c as int) < 128
    ensures CharSextet(c) == Some(x)
  {
    if x < 26 then ('A' as int + x) as char
    else if x < 52 then ('a' as int + x - 26) as char
    else if x < 62 then ('0' as int + x - 52) as char
    else if x == 62 then '-' else '_'
  }

  // The decoder takes the characters of the plain and of the url-safe alphabet alike.
  function CharSextet(c: char): Option<Sextet> {
    if 'A' <= c <= 'Z' then Some(c as int - 'A' as int)
    else if 'a' <= c <= 'z' then Some(c as int - 'a' as int + 26)
    else if '0' <= c <= '9' then Some(c as int - '0' as int + 52)
    else if c == '-' || c == '+' then Some(62)
    else if c == '_' || c == '/' then Some(63)
    else None
  }

  // Eight bits a byte, six bits a character; a short last group is filled up with zero bits.
  function One(a: Byte): seq<Sextet> {
    [a / 4, a % 4 * 16]
  }

  function Two(a: Byte, b: Byte): seq<Sextet> {
    [a / 4, a % 4 * 16 + b / 16, b % 16 * 4]
  }

  function Three(a: Byte, b: Byte, c: Byte): seq<Sextet> {
    [a / 4, a % 4 * 16 + b / 16, b % 16 * 4 + c / 64, c % 64]
  }

  function Sextets(bytes: seq<Byte>): seq<Sextet> {
    if bytes == [] then []
    else if |bytes| == 1 then One(bytes[0])
    else if |bytes| == 2 then Two(bytes[0], bytes[1])
    else Three(bytes[0], bytes[1], bytes[2]) + Sextets(bytes[3..])
  }

  function Chars(sextets: seq<Sextet>): string {
    if sextets == [] then "" else [SextetChar(sextets[0])] + Chars(sextets[1..])
  }

  function Equals(n: nat): string {
    if n == 0 then "" else "=" + Equals(n - 1)
  }

  function Pads(n: nat): nat {
    (3 - n % 3) % 3
  }

  // `urlsafe_b64encode`: whole groups of four characters.
  function EncodePadded(bytes: seq<Byte>): string {
    Chars(Sextets(bytes)) + Equals(Pads(|bytes|))
  }

  // `rstrip(b"=")`
  function StripEquals(s: string): string {
    if s != "" && s[|s| - 1] == '=' then StripEquals(s[..|s| - 1]) else s
  }

  function Encode(bytes: seq<Byte>): string {
    StripEquals(EncodePadded(bytes))
  }

  // ---------- Decoding ----------

  datatype Scan =
    | Reading(quad: nat, left: nat, pads: nat, out: seq<Byte>)
    | Stopped(out: seq<Byte>)

  const START := Reading(0, 0, 0, [])

  function ReadSextet(st: Scan, x: Sextet): Scan
    requires st.Reading?
  {
    match st.quad
    case 0 => Reading(1, x, 0, st.out)
    case 1 => Reading(2, x % 16, 0, st.out + [(st.left * 4 + x / 16) % 256])
    case 2 => Reading(3, x % 4, 0, st.out + [(st.left * 16 + x / 4) % 256])
    case _ => Reading(0, 0, 0, st.out + [(st.left * 64 + x) % 256])
  }

  function Read(st: Scan, c: char): Scan {
    if st.Stopped? then st
    else if c == '=' then
      if st.quad >= 2 && st.quad + st.pads + 1 >= 4 then Stopped(st.out)
      else if st.quad >= 2 then st.(pads := st.pads + 1)
      else st
    else
      match CharSextet(c)
      case None => st
      case Some(x) => ReadSextet(st, x)
  }

  function ReadAll(st: Scan, s: string): Scan
    decreases |s|
  {
    if s == "" then st else ReadAll(Read(st, s[0]), s[1..])
  }

  // The library fails on an unfinished group of four, unless padding ended it.
  function DecodePadded(s: string): Option<seq<Byte>> {
    var st := ReadAll(START, s);
    if st.Stopped? || st.quad == 0 then Some(st.out) else None
  }

  predicate IsAscii(s: string) {
    forall c | c in s :: (c as int) < 128
  }

  function Padding(length: nat): string {
    Equals((4 - length % 4) % 4)
  }

  function Decode(value: string): Option<seq<Byte>> {
    if IsAscii(value) then DecodePadded(value + Padding(|value|)) else None
  }

  // ---------- The round trip ----------

  // How many characters are left over after whole groups of four, for `n` bytes.
  function Extra(n: nat): nat {
    if n % 3 == 0 then 0 else n % 3 + 1
  }

  lemma {:induction false} SextetsLength(bytes: seq<Byte>)
    ensures |Sextets(bytes)| == |bytes| / 3 * 4 + Extra(|bytes|)
  {
    if |bytes| >= 3 {
      SextetsLength(bytes[3..]);
      LessThree(|bytes|);
    }
  }

  lemma LessThree(n: nat)
    requires n >= 3
    ensures (n - 3) / 3 == n / 3 - 1 && Extra(n - 3) == Extra(n)
  {
  }

  lemma {:induction false} CharsShape(sextets: seq<Sextet>)
    ensures |Chars(sextets)| == |sextets|
    ensures IsAscii(Chars(sextets)) && '=' !in Chars(sextets) && '.' !in Chars(sextets)
  {
    if sextets != [] {
      CharsShape(sextets[1..]);
    }
  }

  lemma {:induction false} EqualsShape(n: nat)
    ensures |Equals(n)| == n && forall c | c in Equals(n) :: c == '='
  {
    if n > 0 {
      EqualsShape(n - 1);
    }
  }

  lemma {:induction false} StripUndoesPadding(s: string, n: nat)
    requires '=' !in s
    ensures StripEquals(s + Equals(n)) == s
  {
    if n == 0 {
      assert s + Equals(n) == s;
    } else {
      StripUndoesPadding(s, n - 1);
      EqualsGrows(n - 1);
      assert s + Equals(n) == (s + Equals(n - 1)) + "=";
    }
  }

  lemma {:induction false} EqualsGrows(n: nat)
    ensures Equals(n) + "=" == "=" + Equals(n)
  {
    if n > 0 {
      EqualsGrows(n - 1);
      assert Equals(n) + "=" == "=" + (Equals(n - 1) + "=");
    }
  }

  // `groups` whole groups of three bytes and `rest` more.
  lemma GroupsAndRest(groups: nat, rest: nat)
    requires rest < 3
    ensures
      var extra, pads := if rest == 0 then 0 else rest + 1, (3 - rest) % 3;
      var length := groups * 4 + extra;
      length % 4 == extra && (4 - length % 4) % 4 == pads && (length + pads) % 4 == 0
  {
    assert (groups * 4) % 4 == 0 && (groups * 4 + 2) % 4 == 2 && (groups * 4 + 3) % 4 == 3 && (groups * 4 + 4) % 4 == 0;
  }

  lemma GroupSizes(n: nat)
    ensures (n / 3 * 4 + Extra(n)) % 4 == Extra(n)
    ensures (4 - (n / 3 * 4 + Extra(n)) % 4) % 4 == Pads(n)
    ensures (n / 3 * 4 + Extra(n) + Pads(n)) % 4 == 0
  {
    GroupsAndRest(n / 3, n % 3);
  }

  // What encoding gives: letters only, and never one more than a multiple of four of them.
  lemma EncodedShape(bytes: seq<Byte>)
    ensures Encode(bytes) == Chars(Sextets(bytes))
    ensures IsAscii(Encode(bytes)) && '.' !in Encode(bytes) && '=' !in Encode(bytes)
    ensures |Encode(bytes)| == |bytes| / 3 * 4 + Extra(|bytes|)
    ensures |Encode(bytes)| % 4 != 1
  {
    SextetsLength(bytes);
    CharsShape(Sextets(bytes));
    StripUndoesPadding(Chars(Sextets(bytes)), Pads(|bytes|));
    GroupSizes(|bytes|);
  }

  lemma PaddingFor(n: nat)
    ensures Padding(n / 3 * 4 + Extra(n)) == Equals(Pads(n))
  {
    GroupSizes(n);
  }

  // The padding formula of the decoder restores exactly the characters that were stripped.
  lemma PaddingIsRestored(bytes: seq<Byte>)
    ensures Encode(bytes) + Padding(|Encode(bytes)|) == EncodePadded(bytes)
  {
    EncodedShape(bytes);
    PaddingFor(|bytes|);
  }

  // And they complete the last group of four.
  lemma PaddedInGroups(bytes: seq<Byte>)
    ensures |EncodePadded(bytes)| % 4 == 0
  {
    SextetsLength(bytes);
    CharsShape(Sextets(bytes));
    EqualsShape(Pads(|bytes|));
    GroupSizes(|bytes|);
  }

  lemma {:induction false} ReadAppend(st: Scan, a: string, b: string)
    ensures ReadAll(st, a + b) == ReadAll(ReadAll(st, a), b)
    decreases |a|
  {
    if a == "" {
      assert a + b == b;
    } else {
      assert (a + b)[1..] == a[1..] + b;
      ReadAppend(Read(st, a[0]), a[1..], b);
    }
  }

  ghost function ReadSextets(st: Scan, sextets: seq<Sextet>): (r: Scan)
    requires st.Reading?
    ensures r.Reading?
    decreases |sextets|
  {
    if sextets == [] then st else ReadSextets(ReadSextet(st, sextets[0]), sextets[1..])
  }

  lemma {:induction false} ReadChars(st: Scan, sextets: seq<Sextet>)
    requires st.Reading?
    ensures ReadAll(st, Chars(sextets)) == ReadSextets(st, sextets)
    decreases |sextets|
  {
    if sextets != [] {
      ReadChars(ReadSextet(st, sextets[0]), sextets[1..]);
    }
  }

  lemma ReadPair(st: Scan, a: Sextet, b: Sextet, rest: seq<Sextet>)
    requires st.Reading?
    ensures ReadSextets(st, [a, b] + rest) == ReadSextets(ReadSextet(ReadSextet(st, a), b), rest)
  {
    assert ([a, b] + rest)[1..] == [b] + rest;
    assert ([b] + rest)[1..] == rest;
  }

  lemma ReadOne(out: seq<Byte>, a: Byte)
    ensures ReadSextets(Reading(0, 0, 0, out), One(a)) == Reading(2, 0, 0, out + [a])
  {
    ReadPair(Reading(0, 0, 0, out), a / 4, a % 4 * 16, []);
    assert [a / 4, a % 4 * 16] + [] == One(a);
    assert (a / 4 * 4 + a % 4 * 16 / 16) % 256 == a;
  }

  lemma ReadTwo(out: seq<Byte>, a: Byte, b: Byte)
    ensures ReadSextets(Reading(0, 0, 0, out), Two(a, b)) == Reading(3, 0, 0, out + [a, b])
  {
    var w, x, y := a / 4, a % 4 * 16 + b / 16, b % 16 * 4;
    ReadPair(Reading(0, 0, 0, out), w, x, [y]);
    assert [w, x] + [y] == Two(a, b);
    TwoBytes(a, b);
    ThreeSteps(out, w, x, y, a, b);
  }

  lemma TwoBytes(a: Byte, b: Byte)
    ensures
      var x, y := a % 4 * 16 + b / 16, b % 16 * 4;
      && x / 16 == a % 4 && x % 16 == b / 16 && y / 4 == b % 16 && y % 4 == 0
      && (a / 4 * 4 + x / 16) % 256 == a
      && (x % 16 * 16 + y / 4) % 256 == b
  {
  }

  // Three sextets read in a row give two bytes.
  lemma ThreeSteps(out: seq<Byte>, w: Sextet, x: Sextet, y: Sextet, a: Byte, b: Byte)
    requires (w * 4 + x / 16) % 256 == a && (x % 16 * 16 + y / 4) % 256 == b && y % 4 == 0
    ensures ReadSextet(ReadSextet(ReadSextet(Reading(0, 0, 0, out), w), x), y) == Reading(3, 0, 0, out + [a, b])
  {
    var st2 := ReadSextet(ReadSextet(Reading(0, 0, 0, out), w), x);
    assert st2 == Reading(2, x % 16, 0, out + [a]);
    assert out + [a] + [b] == out + [a, b];
  }

  lemma ThreeBytes(a: Byte, b: Byte, c: Byte)
    ensures
      var x, y := a % 4 * 16 + b / 16, b % 16 * 4 + c / 64;
      && (a / 4 * 4 + x / 16) % 256 == a
      && (x % 16 * 16 + y / 4) % 256 == b
      && (y % 4 * 64 + c % 64) % 256 == c
  {
    TwoBytes(a, b);
    assert (b % 16 * 4 + c / 64) % 4 == c / 64 && (b % 16 * 4 + c / 64) / 4 == b % 16;
  }

  // Four sextets read in a row give three bytes.
  lemma FourSteps(out: seq<Byte>, w: Sextet, x: Sextet, y: Sextet, z: Sextet, a: Byte, b: Byte, c: Byte)
    requires (w * 4 + x / 16) % 256 == a && (x % 16 * 16 + y / 4) % 256 == b && (y % 4 * 64 + z) % 256 == c
    ensures ReadSextet(ReadSextet(ReadSextet(ReadSextet(Reading(0, 0, 0, out), w), x), y), z) == Reading(0, 0, 0, out + [a, b, c])
  {
    var st2 := ReadSextet(ReadSextet(Reading(0, 0, 0, out), w), x);
    assert st2 == Reading(2, x % 16, 0, out + [a]);
    var st3 := ReadSextet(st2, y);
    assert st3 == Reading(3, y % 4, 0, out + [a] + [b]);
    assert out + [a] + [b] + [c] == out + [a, b, c];
  }

  lemma ReadThree(out: seq<Byte>, a: Byte, b: Byte, c: Byte, rest: seq<Sextet>)
    ensures ReadSextets(Reading(0, 0, 0, out), Three(a, b, c) + rest)
         == ReadSextets(Reading(0, 0, 0, out + [a, b, c]), rest)
  {
    var w, x, y, z := a / 4, a % 4 * 16 + b / 16, b % 16 * 4 + c / 64, c % 64;
    ThreeBytes(a, b, c);
    FourSteps(out, w, x, y, z, a, b, c);
    ReadQuad(Reading(0, 0, 0, out), w, x, y, z, rest);
  }

  lemma ReadQuad(st: Scan, w: Sextet, x: Sextet, y: Sextet, z: Sextet, rest: seq<Sextet>)
    requires st.Reading?
    ensures ReadSextets(st, [w, x, y, z] + rest)
         == ReadSextets(ReadSextet(ReadSextet(ReadSextet(ReadSextet(st, w), x), y), z), rest)
  {
    ReadPair(st, w, x, [y, z] + rest);
    ReadPair(ReadSextet(ReadSextet(st, w), x), y, z, rest);
    assert [w, x] + ([y, z] + rest) == [w, x, y, z] + rest;
  }

  // The characters of whole groups and of a last short group give back the bytes.
  lemma {:induction false} ReadEncoded(out: seq<Byte>, bytes: seq<Byte>)
    ensures
      ReadSextets(Reading(0, 0, 0, out), Sextets(bytes))
      == Reading(Extra(|bytes|), 0, 0, out + bytes)
    decreases |bytes|
  {
    if bytes == [] {
      assert out + bytes == out;
    } else if |bytes| == 1 {
      ReadOne(out, bytes[0]);
      assert [bytes[0]] == bytes;
    } else if |bytes| == 2 {
      ReadTwo(out, bytes[0], bytes[1]);
      assert [bytes[0], bytes[1]] == bytes;
    } else {
      ReadThree(out, bytes[0], bytes[1], bytes[2], Sextets(bytes[3..]));
      ReadEncoded(out + [bytes[0], bytes[1], bytes[2]], bytes[3..]);
      LessThree(|bytes|);
      assert out + [bytes[0], bytes[1], bytes[2]] + bytes[3..] == out + bytes;
    }
  }

  lemma ReadEquals(st: Scan)
    requires st.Reading? && st.pads == 0
    ensures ReadAll(st, Equals(0)) == st
    ensures st.quad == 2 ==> ReadAll(st, Equals(2)) == Stopped(st.out)
    ensures st.quad == 3 ==> ReadAll(st, Equals(1)) == Stopped(st.out)
  {
    assert Equals(1) == "=";
    assert Equals(2)[0] == '=' && Equals(2)[1..] == Equals(1);
  }

  lemma PaddedRoundTrip(bytes: seq<Byte>)
    ensures DecodePadded(EncodePadded(bytes)) == Some(bytes)
  {
    ReadEncoded([], bytes);
    ReadAppend(START, Chars(Sextets(bytes)), Equals(Pads(|bytes|)));
    ReadChars(START, Sextets(bytes));
    assert [] + bytes == bytes;
    ReadEquals(Reading(Extra(|bytes|), 0, 0, bytes));
  }

  // Decoding undoes encoding, for every sequence of bytes.
  lemma RoundTrip(bytes: seq<Byte>)
    ensures Decode(Encode(bytes)) == Some(bytes)
  {
    EncodedShape(bytes);
    PaddingIsRestored(bytes);
    PaddedRoundTrip(bytes);
  }

  // So no two byte sequences share an encoding.
  lemma EncodeIsInjective(a: seq<Byte>, b: seq<Byte>)
    ensures Encode(a) == Encode(b) <==> a == b
  {
    RoundTrip(a);
    RoundTrip(b);
  }

  // Test vectors of section 10 of RFC 4648.
  lemma KnownEncodings()
    ensures Encode([102]) == "Zg" && Encode([102, 111]) == "Zm8"
  {
    OneByte(102);
    TwoBytesEncoded(102, 111);
  }

  // The two characters in which the url-safe alphabet differs from the plain one.
  lemma UrlSafeCharacters()
    ensures Encode([251, 255]) == "-_8"
  {
    TwoBytesEncoded(251, 255);
  }

  lemma OneByte(a: Byte)
    ensures Encode([a]) == [SextetChar(a / 4), SextetChar(a % 4 * 16)]
  {
    EncodedShape([a]);
    assert [a / 4, a % 4 * 16][1..] == [a % 4 * 16] && [a % 4 * 16][1..] == [];
  }

  lemma TwoBytesEncoded(a: Byte, b: Byte)
    ensures Encode([a, b]) == [SextetChar(a / 4), SextetChar(a % 4 * 16 + b / 16), SextetChar(b % 16 * 4)]
  {
    EncodedShape([a, b]);
    FourLetters(a / 4, a % 4 * 16 + b / 16, b % 16 * 4, 0);
  }

  // Three bytes make four characters of six bits each, from the highest bit down.
  lemma ThreeBytesEncoded(a: Byte, b: Byte, c: Byte)
    ensures Encode([a, b, c])
      == [SextetChar(a / 4), SextetChar(a % 4 * 16 + b / 16), SextetChar(b % 16 * 4 + c / 64), SextetChar(c % 64)]
  {
    EncodedShape([a, b, c]);
    assert [a, b, c][3..] == [] && Sextets([a, b, c]) == Three(a, b, c) + [];
    assert Three(a, b, c) + [] == Three(a, b, c);
    FourLetters(a / 4, a % 4 * 16 + b / 16, b % 16 * 4 + c / 64, c % 64);
  }

  lemma FourLetters(w: Sextet, x: Sextet, y: Sextet, z: Sextet)
    ensures Chars([w, x, y]) == [SextetChar(w), SextetChar(x), SextetChar(y)]
    ensures Chars([w, x, y, z]) == [SextetChar(w), SextetChar(x), SextetChar(y), SextetChar(z)]
  {
    assert [w, x, y][1..] == [x, y] && [x, y][1..] == [y] && [y][1..] == [];
    assert [w, x, y, z][1..] == [x, y, z] && [x, y, z][1..] == [y, z] && [y, z][1..] == [z] && [z][1..] == [];
    assert Chars([y]) == [SextetChar(y)] && Chars([z]) == [SextetChar(z)];
    assert Chars([x, y]) == [SextetChar(x), SextetChar(y)];
    assert Chars([y, z]) == [SextetChar(y), SextetChar(z)];
    assert Chars([x, y, z]) == [SextetChar(x), SextetChar(y), SextetChar(z)];
  }
}
