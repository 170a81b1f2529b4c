/** Models the did:key path: src/lib/multibase.ts (encodeDidKey), the JWK packing of
    src/modules/identity/flows/register-wallet-did.flow.ts and the SEC1 unpacking of
    src/lib/security/jws-proof.ts.

    Node's `Buffer.from(_, "base64")` is a parameter: the theorems only assume that it decodes
    what RFC 4648 encodes. */
module DidKey {
  import opened Options
  import opened Base58

  datatype Error =
    | MissingY | UnsupportedKeyType | UnsupportedCurve | InvalidPoint | UnsupportedLength

  datatype Result<+T> = Ok(value: T) | Err(error: Error)

  datatype Jwk = Jwk(kty: string, crv: Option<string>, x: string, y: Option<string>)

  datatype KeyType = Ed25519VerificationKey2020 | JsonWebKey2020

  datatype KeyInfo = KeyInfo(raw: seq<Byte>, prefix: seq<Byte>, keyType: KeyType)

  /** The JWK handed to jose's importJWK. */
  datatype PublicJwk = PublicJwk(kty: string, crv: string, x: string, y: Option<string>)

  // ---------------------------------------------------------------------------------------------
  // base64 (RFC 4648 sections 4 and 5)
  // ---------------------------------------------------------------------------------------------

  const LETTERS := "ABCDEFGHIJKLM" + "NOPQRSTUVWXYZ" + "abcdefghijklm" + "nopqrstuvwxyz" + "0123456789"
  const STANDARD := LETTERS + "+/"
  const URL_SAFE := LETTERS + "-_"

  function Sextets(b: seq<Byte>): (s: seq<int>)
    ensures forall i | 0 <= i < |s| :: 0 <= s[i] < 64
    ensures |s| % 4 != 1
  {
    if |b| == 0 then []
    else if |b| == 1 then [b[0] / 4, b[0] % 4 * 16]
    else if |b| == 2 then [b[0] / 4, b[0] % 4 * 16 + b[1] / 16, b[1] % 16 * 4]
    else [b[0] / 4, b[0] % 4 * 16 + b[1] / 16, b[1] % 16 * 4 + b[2] / 64, b[2] % 64] + Sextets(b[3..])
  }

  function FromSextets(s: seq<int>): seq<Byte>
    requires forall i | 0 <= i < |s| :: 0 <= s[i] < 64
  {
    if |s| < 2 then []
    else if |s| == 2 then [s[0] * 4 + s[1] / 16]
    else if |s| == 3 then [s[0] * 4 + s[1] / 16, s[1] % 16 * 16 + s[2] / 4]
    else [s[0] * 4 + s[1] / 16, s[1] % 16 * 16 + s[2] / 4, s[2] % 4 * 64 + s[3]] + FromSextets(s[4..])
  }

  lemma {:induction false} FromSextetsUndoesSextets(b: seq<Byte>)
    ensures FromSextets(Sextets(b)) == b
    decreases |b|
  {
    if |b| >= 3 {
      FromSextetsUndoesSextets(b[3..]);
      assert Sextets(b)[4..] == Sextets(b[3..]);
      assert b == [b[0], b[1], b[2]] + b[3..];
    }
  }

  function Spell(s: seq<int>, alphabet: string): (r: string)
    requires |alphabet| == 64 && forall i | 0 <= i < |s| :: 0 <= s[i] < 64
    ensures |r| == |s| && forall i | 0 <= i < |s| :: r[i] == alphabet[s[i]]
  {
    seq(|s|, i requires 0 <= i < |s| => alphabet[s[i]])
  }

  function PadLength(n: nat): nat { (4 - n % 4) % 4 }

  function Pads(n: nat): (s: string)
    ensures |s| == n && forall i | 0 <= i < n :: s[i] == '='
  {
    seq(n, _ => '=')
  }

  /** RFC 4648 section 4: the standard alphabet with padding. */
  function StandardEncode(b: seq<Byte>): string {
    var s := Sextets(b);
    Spell(s, STANDARD) + Pads(PadLength(|s|))
  }

  /** RFC 4648 section 5 without padding: what `toString("base64url")` produces. */
  function UrlEncode(b: seq<Byte>): string {
    Spell(Sextets(b), URL_SAFE)
  }

  /** What is assumed of `Buffer.from(s, "base64")`. */
  ghost predicate DecodesBase64(decode: string -> seq<Byte>) {
    forall b: seq<Byte> :: decode(StandardEncode(b)) == b
  }

  function ToUrlUnsafe(c: char): char {
    if c == '-' then '+' else if c == '_' then '/' else c
  }

  /** base64urlDecode. */
  function UrlDecode(s: string, decode: string -> seq<Byte>): seq<Byte> {
    var padded := seq(|s|, i requires 0 <= i < |s| => ToUrlUnsafe(s[i]));
    decode(padded + Pads(PadLength(|padded|)))
  }

  /** The two alphabets of RFC 4648, tables 1 and 2. */
  lemma Base64Alphabets(i: nat)
    requires i < 64
    ensures |STANDARD| == 64 && |URL_SAFE| == 64
    ensures i < 26 ==> STANDARD[i] as int == 'A' as int + i
    ensures 26 <= i < 52 ==> STANDARD[i] as int == 'a' as int + (i - 26)
    ensures 52 <= i < 62 ==> STANDARD[i] as int == '0' as int + (i - 52)
    ensures STANDARD[62] == '+' && STANDARD[63] == '/' && URL_SAFE[62] == '-' && URL_SAFE[63] == '_'
    ensures i < 62 ==> URL_SAFE[i] == STANDARD[i]
  {
    StandardRank(i);
    if i < 62 { LetterKinds(i); }
  }

  lemma LetterKinds(i: nat)
    requires i < 62
    ensures i < 26 ==> 'A' <= STANDARD[i] <= 'Z'
    ensures 26 <= i < 52 ==> 'a' <= STANDARD[i] <= 'z'
    ensures 52 <= i ==> '0' <= STANDARD[i] <= '9'
  {
    assert STANDARD[i] == LETTERS[i];
    assert forall k | 0 <= k < 26 :: 'A' <= LETTERS[k] <= 'Z';
    assert forall k | 26 <= k < 52 :: 'a' <= LETTERS[k] <= 'z';
    assert forall k | 52 <= k < 62 :: '0' <= LETTERS[k] <= '9';
  }

  /** Three bytes are four sextets of the same 24-bit number, most significant first; a last group of one or two
      bytes is filled up with zero bits to two or three sextets. */
  lemma SextetsSpellBytes(b: seq<Byte>)
    ensures var s := Sextets(b);
      && (|b| == 0 ==> s == [])
      && (|b| == 1 ==> |s| == 2 && 64 * s[0] + s[1] == 16 * (b[0] as int))
      && (|b| == 2 ==> |s| == 3 && 4096 * s[0] + 64 * s[1] + s[2] == 4 * (256 * (b[0] as int) + b[1] as int))
      && (|b| >= 3 ==>
            && |s| == 4 + |Sextets(b[3..])| && s[4..] == Sextets(b[3..])
            && 262144 * s[0] + 4096 * s[1] + 64 * s[2] + s[3] == 65536 * (b[0] as int) + 256 * (b[1] as int) + b[2] as int)
  {
  }

  /** The padded encoding has a length divisible by four, of which the last one or two characters may be padding. */
  lemma PaddedToFour(b: seq<Byte>)
    ensures |StandardEncode(b)| % 4 == 0 && |StandardEncode(b)| - |UrlEncode(b)| == (if |b| % 3 == 0 then 0 else 3 - |b| % 3)
  {
    SextetCount(b);
    var n := |b|;
    assert n == 3 * (n / 3) + n % 3;
  }

  lemma {:induction false} SextetCount(b: seq<Byte>)
    ensures |Sextets(b)| == 4 * (|b| / 3) + (if |b| % 3 == 0 then 0 else |b| % 3 + 1)
    decreases |b|
  {
    if |b| >= 3 { SextetCount(b[3..]); }
  }

  lemma UrlUnsafeLetter(i: nat)
    requires i < 64
    ensures ToUrlUnsafe(URL_SAFE[i]) == STANDARD[i] != '='
  {
    if i < 62 {
      assert URL_SAFE[i] == LETTERS[i] == STANDARD[i];
      LettersArePlain(i);
    }
  }

  lemma LettersArePlain(i: nat)
    requires i < 62
    ensures LETTERS[i] !in "+/-_="
  {
    assert forall k | 0 <= k < 26 :: 'A' <= LETTERS[k] <= 'Z';
    assert forall k | 26 <= k < 52 :: 'a' <= LETTERS[k] <= 'z';
    assert forall k | 52 <= k < 62 :: '0' <= LETTERS[k] <= '9';
  }

  /** Restoring the alphabet and the padding undoes the unpadded URL-safe encoding of any bytes. */
  lemma {:induction false} UrlDecodeUndoesUrlEncode(b: seq<Byte>, decode: string -> seq<Byte>)
    requires DecodesBase64(decode)
    ensures UrlDecode(UrlEncode(b), decode) == b
  {
    var s := UrlEncode(b);
    var padded := seq(|s|, i requires 0 <= i < |s| => ToUrlUnsafe(s[i]));
    forall i | 0 <= i < |s| ensures padded[i] == Spell(Sextets(b), STANDARD)[i] {
      UrlUnsafeLetter(Sextets(b)[i]);
    }
    assert padded == Spell(Sextets(b), STANDARD);
    assert padded + Pads(PadLength(|padded|)) == StandardEncode(b);
  }

  /** A decoder in the sense of `DecodesBase64` exists: this one. */
  function StandardDecode(s: string): seq<Byte> {
    if s != "" && s[|s| - 1] == '=' then StandardDecode(s[..|s| - 1])
    else FromSextets(seq(|s|, i requires 0 <= i < |s| => var k := IndexOf(s[i], STANDARD); if 0 <= k < 64 then k else 0))
  }

  lemma {:induction false} StandardIsInjective(i: nat, j: nat)
    requires i < 64 && j < 64 && STANDARD[i] == STANDARD[j]
    ensures i == j
  {
    assert Rank(STANDARD[i]) == i by { StandardRank(i); }
    assert Rank(STANDARD[j]) == j by { StandardRank(j); }
  }

  function Rank(c: char): int {
    if 'A' <= c <= 'Z' then c as int - 65
    else if 'a' <= c <= 'z' then c as int - 71
    else if '0' <= c <= '9' then c as int + 4
    else if c == '+' then 62 else 63
  }

  lemma UpperRank(i: nat)
    requires i < 26
    ensures Rank(STANDARD[i]) == i
  {
  }

  lemma LowerRank(i: nat)
    requires 26 <= i < 52
    ensures Rank(STANDARD[i]) == i
  {
  }

  lemma StandardRank(i: nat)
    requires i < 64
    ensures Rank(STANDARD[i]) == i
  {
    if i < 26 { UpperRank(i); } else if i < 52 { LowerRank(i); }
  }

  lemma StandardDecodeStripsPad(t: string)
    requires t != "" && t[|t| - 1] == '='
    ensures StandardDecode(t) == StandardDecode(t[..|t| - 1])
  {
  }

  lemma {:induction false} StandardDecodeStripsPads(s: string, n: nat)
    ensures StandardDecode(s + Pads(n)) == StandardDecode(s)
  {
    if n == 0 {
      assert s + Pads(0) == s;
    } else {
      var t := s + Pads(n);
      assert t[|t| - 1] == '=' && t[..|t| - 1] == s + Pads(n - 1);
      StandardDecodeStripsPad(t);
      StandardDecodeStripsPads(s, n - 1);
    }
  }

  lemma {:induction false} StandardDecodeDecodes()
    ensures DecodesBase64(StandardDecode)
  {
    forall b: seq<Byte> ensures StandardDecode(StandardEncode(b)) == b {
      var x := Sextets(b);
      var s := Spell(x, STANDARD);
      StandardDecodeStripsPads(s, PadLength(|x|));
      var back := seq(|s|, i requires 0 <= i < |s| => var k := IndexOf(s[i], STANDARD); if 0 <= k < 64 then k else 0);
      forall i | 0 <= i < |s| ensures back[i] == x[i] && s[i] != '=' {
        assert s[i] == STANDARD[x[i]];
        UrlUnsafeLetter(x[i]);
        StandardIsInjective(IndexOf(s[i], STANDARD), x[i]);
      }
      assert back == x;
      FromSextetsUndoesSextets(b);
    }
  }

  lemma UrlEncodeIsInjective(a: seq<Byte>, b: seq<Byte>)
    requires UrlEncode(a) == UrlEncode(b)
    ensures a == b
  {
    StandardDecodeDecodes();
    UrlDecodeUndoesUrlEncode(a, StandardDecode);
    UrlDecodeUndoesUrlEncode(b, StandardDecode);
  }

  // ---------------------------------------------------------------------------------------------
  // From JWK to did:key
  // ---------------------------------------------------------------------------------------------

  const ED25519_PUB_PREFIX: seq<Byte> := [0xed, 0x01]

  /** ecCrvMulticodec. */
  function CurvePrefix(crv: string): Result<seq<Byte>> {
    if crv == "P-256" then Ok([0x80, 0x24])
    else if crv == "P-384" then Ok([0x81, 0x24])
    else if crv == "P-521" then Ok([0x82, 0x24])
    else Err(UnsupportedCurve)
  }

  /** The number an unsigned varint of two bytes stands for. */
  function Varint(bytes: seq<Byte>): int
    requires |bytes| == 2 && bytes[0] >= 128 && bytes[1] < 128
  {
    bytes[0] as int - 128 + 128 * (bytes[1] as int)
  }

  /** The codes of the multicodec table: ed25519-pub, p256-pub, p384-pub and p521-pub; other curves have none. */
  lemma PrefixesAreMulticodec(crv: string)
    ensures |ED25519_PUB_PREFIX| == 2 && ED25519_PUB_PREFIX[0] >= 128 > ED25519_PUB_PREFIX[1] && Varint(ED25519_PUB_PREFIX) == 0xed
    ensures CurvePrefix(crv).Ok? <==> crv in {"P-256", "P-384", "P-521"}
    ensures CurvePrefix(crv).Ok? ==>
      var p := CurvePrefix(crv).value;
      && |p| == 2 && p[0] >= 128 && p[1] < 128
      && Varint(p) == if crv == "P-256" then 0x1200 else if crv == "P-384" then 0x1201 else 0x1202
  {
  }

  predicate Truthy(s: Option<string>) { s.Some? && s.value != "" }

  /** SEC 1 section 2.3.3, uncompressed. */
  function Point(x: seq<Byte>, y: seq<Byte>): seq<Byte> { [0x04] + x + y }

  /** What a JWK becomes, or why it is refused. */
  function KeyInfoOf(jwk: Jwk, decode: string -> seq<Byte>): Result<KeyInfo> {
    if jwk.kty == "OKP" && jwk.crv == Some("Ed25519") then
      Ok(KeyInfo(UrlDecode(jwk.x, decode), ED25519_PUB_PREFIX, Ed25519VerificationKey2020))
    else if jwk.kty == "EC" && Truthy(jwk.crv) then
      if !Truthy(jwk.y) then Err(MissingY)
      else match CurvePrefix(jwk.crv.value)
        case Err(e) => Err(e)
        case Ok(prefix) =>
          Ok(KeyInfo(Point(UrlDecode(jwk.x, decode), UrlDecode(jwk.y.value, decode)), prefix, JsonWebKey2020))
    else Err(UnsupportedKeyType)
  }

  /** What is accepted, with what bytes and under which prefix, and each refusal. */
  lemma KeyInfoAnswers(jwk: Jwk, decode: string -> seq<Byte>)
    ensures var k := KeyInfoOf(jwk, decode);
      var isEd, isEc := jwk.kty == "OKP" && jwk.crv == Some("Ed25519"), jwk.kty == "EC" && jwk.crv.Some? && jwk.crv.value != "";
      var hasY, known := jwk.y.Some? && jwk.y.value != "", jwk.crv.Some? && jwk.crv.value in {"P-256", "P-384", "P-521"};
      && (k.Ok? <==> isEd || (isEc && hasY && known))
      && (k == Err(MissingY) <==> isEc && !hasY)
      && (k == Err(UnsupportedCurve) <==> isEc && hasY && !known)
      && (k == Err(UnsupportedKeyType) <==> !isEd && !isEc)
      && (isEd ==> k.value.raw == UrlDecode(jwk.x, decode) && k.value.keyType.Ed25519VerificationKey2020? && k.value.prefix == [0xed, 0x01])
      && (k.Ok? && !isEd ==>
            && k.value.raw == [0x04] + UrlDecode(jwk.x, decode) + UrlDecode(jwk.y.value, decode) && k.value.keyType.JsonWebKey2020?
            && |k.value.prefix| == 2 && k.value.prefix[0] >= 128 && k.value.prefix[1] < 128
            && Varint(k.value.prefix) == if jwk.crv == Some("P-256") then 0x1200 else if jwk.crv == Some("P-384") then 0x1201 else 0x1202)
  {
    if jwk.crv.Some? { PrefixesAreMulticodec(jwk.crv.value); }
  }

  method CopyInto(target: array<Byte>, source: seq<Byte>, offset: nat)
    requires offset + |source| <= target.Length
    modifies target
    ensures target[..] == old(target[..offset]) + source + old(target[offset + |source|..])
  {
    for i := 0 to |source|
      invariant target[..] == old(target[..offset]) + source[..i] + old(target[offset + i..])
    {
      target[offset + i] := source[i];
    }
  }

  /** jwkToKeyInfo, with the point assembled in place. */
  method JwkToKeyInfo(jwk: Jwk, decode: string -> seq<Byte>) returns (r: Result<KeyInfo>)
    ensures r == KeyInfoOf(jwk, decode)
  {
    var x := UrlDecode(jwk.x, decode);
    if jwk.kty == "OKP" && jwk.crv == Some("Ed25519") {
      return Ok(KeyInfo(x, ED25519_PUB_PREFIX, Ed25519VerificationKey2020));
    }
    if jwk.kty == "EC" && Truthy(jwk.crv) && Truthy(jwk.y) {
      var y := UrlDecode(jwk.y.value, decode);
      var combined := new Byte[1 + |x| + |y|];
      combined[0] := 0x04;
      CopyInto(combined, x, 1);
      CopyInto(combined, y, 1 + |x|);
      assert combined[..] == Point(x, y);
      var prefix := CurvePrefix(jwk.crv.value);
      if prefix.Err? { return Err(prefix.error); }
      return Ok(KeyInfo(combined[..], prefix.value, JsonWebKey2020));
    }
    if jwk.kty == "EC" && Truthy(jwk.crv) && !Truthy(jwk.y) {
      return Err(MissingY);
    }
    return Err(UnsupportedKeyType);
  }

  const DID_KEY_PREFIX := "did:key:" + "z"

  function Did(raw: seq<Byte>, prefix: seq<Byte>): string {
    DID_KEY_PREFIX + Encode(prefix + raw)
  }

  /** encodeDidKey. */
  method EncodeDidKey(raw: seq<Byte>, prefix: seq<Byte>) returns (did: string)
    ensures did == Did(raw, prefix)
  {
    var combined := new Byte[|prefix| + |raw|];
    CopyInto(combined, prefix, 0);
    CopyInto(combined, raw, |prefix|);
    assert combined[..] == prefix + raw;
    var body := EncodeBytes(combined[..]);
    did := DID_KEY_PREFIX + body;
  }

  /** A did:key gives back the multicodec prefix and the key bytes it was built from. */
  lemma DidDecodes(raw: seq<Byte>, prefix: seq<Byte>)
    ensures |Did(raw, prefix)| >= 9 && Did(raw, prefix)[..9] == "did:key:z"
    ensures Decode(Did(raw, prefix)[9..]) == Some(prefix + raw)
  {
    assert Did(raw, prefix)[|DID_KEY_PREFIX|..] == Encode(prefix + raw);
    DecodeUndoesEncode(prefix + raw);
  }

  /** The coordinates run together, which is all of an EC key that its DID depends on. */
  function Coordinates(jwk: Jwk, decode: string -> seq<Byte>): seq<Byte> {
    UrlDecode(jwk.x, decode) +
    if jwk.kty == "EC" && Truthy(jwk.y) then UrlDecode(jwk.y.value, decode) else []
  }

  lemma DidDeterminesKey(rawA: seq<Byte>, prefixA: seq<Byte>, rawB: seq<Byte>, prefixB: seq<Byte>)
    requires |prefixA| == |prefixB| && Did(rawA, prefixA) == Did(rawB, prefixB)
    ensures prefixA == prefixB && rawA == rawB
  {
    DidDecodes(rawA, prefixA);
    DidDecodes(rawB, prefixB);
    var n := |prefixA|;
    assert prefixA == (prefixA + rawA)[..n] == (prefixB + rawB)[..n] == prefixB;
    assert rawA == (prefixA + rawA)[n..] == (prefixB + rawB)[n..] == rawB;
  }

  /** The multicodec prefix a (kty, crv) pair calls for. */
  function PrefixFor(kty: string, crv: string): Result<seq<Byte>> {
    if kty == "OKP" && crv == "Ed25519" then Ok(ED25519_PUB_PREFIX)
    else if kty == "EC" then CurvePrefix(crv)
    else Err(UnsupportedKeyType)
  }

  lemma PrefixIsInjective(kty1: string, crv1: string, kty2: string, crv2: string)
    requires PrefixFor(kty1, crv1).Ok? && PrefixFor(kty1, crv1) == PrefixFor(kty2, crv2)
    ensures kty1 == kty2 && crv1 == crv2 && |PrefixFor(kty1, crv1).value| == 2
  {
  }

  /** The point's head byte, present for EC keys only. */
  function Head(kty: string): seq<Byte> { if kty == "EC" then [0x04] else [] }

  lemma KeyInfoShape(jwk: Jwk, decode: string -> seq<Byte>)
    requires KeyInfoOf(jwk, decode).Ok?
    ensures jwk.crv.Some? && PrefixFor(jwk.kty, jwk.crv.value) == Ok(KeyInfoOf(jwk, decode).value.prefix)
    ensures KeyInfoOf(jwk, decode).value.raw == Head(jwk.kty) + Coordinates(jwk, decode)
  {
  }

  lemma AfterHead(head: seq<Byte>, s: seq<Byte>, t: seq<Byte>)
    requires head + s == head + t
    ensures s == t
  {
    assert s == (head + s)[|head|..] == (head + t)[|head|..] == t;
  }

  function DidOf(jwk: Jwk, decode: string -> seq<Byte>): Result<string> {
    match KeyInfoOf(jwk, decode)
    case Err(e) => Err(e)
    case Ok(k) => Ok(Did(k.raw, k.prefix))
  }

  /** Exactly which accepted JWKs share a DID: those on one curve whose concatenated coordinates agree. */
  lemma DidCollision(a: Jwk, b: Jwk, decode: string -> seq<Byte>)
    requires KeyInfoOf(a, decode).Ok? && KeyInfoOf(b, decode).Ok?
    ensures DidOf(a, decode) == DidOf(b, decode)
       <==> a.kty == b.kty && a.crv == b.crv && Coordinates(a, decode) == Coordinates(b, decode)
  {
    var ka, kb := KeyInfoOf(a, decode).value, KeyInfoOf(b, decode).value;
    KeyInfoShape(a, decode);
    KeyInfoShape(b, decode);
    PrefixIsInjective(a.kty, a.crv.value, a.kty, a.crv.value);
    PrefixIsInjective(b.kty, b.crv.value, b.kty, b.crv.value);
    if Did(ka.raw, ka.prefix) == Did(kb.raw, kb.prefix) {
      DidDeterminesKey(ka.raw, ka.prefix, kb.raw, kb.prefix);
      PrefixIsInjective(a.kty, a.crv.value, b.kty, b.crv.value);
      AfterHead(Head(a.kty), Coordinates(a, decode), Coordinates(b, decode));
    }
  }

  /** Equal-length coordinates make the map from keys to DIDs injective. */
  lemma DidInjective(a: Jwk, b: Jwk, decode: string -> seq<Byte>)
    requires KeyInfoOf(a, decode).Ok? && KeyInfoOf(b, decode).Ok?
    requires DidOf(a, decode) == DidOf(b, decode)
    requires forall k | k in {a, b} && k.kty == "EC" ::
      |UrlDecode(k.x, decode)| == |UrlDecode(k.y.GetOr(""), decode)|
    ensures a.kty == b.kty && a.crv == b.crv
    ensures UrlDecode(a.x, decode) == UrlDecode(b.x, decode)
    ensures a.kty == "EC" ==> UrlDecode(a.y.value, decode) == UrlDecode(b.y.value, decode)
  {
    DidCollision(a, b, decode);
    var ca, cb := Coordinates(a, decode), Coordinates(b, decode);
    if a.kty == "EC" {
      var n := |UrlDecode(a.x, decode)|;
      assert UrlDecode(a.x, decode) == ca[..n] == cb[..n] == UrlDecode(b.x, decode);
      assert UrlDecode(a.y.value, decode) == ca[n..] == cb[n..] == UrlDecode(b.y.value, decode);
    } else {
      assert ca == UrlDecode(a.x, decode) && cb == UrlDecode(b.x, decode);
    }
  }

  /** The flow checks no coordinate length, and without one two different keys can share a DID. */
  lemma DifferentKeysOneDid(decode: string -> seq<Byte>) returns (a: Jwk, b: Jwk)
    requires DecodesBase64(decode)
    ensures DidOf(a, decode).Ok? && DidOf(a, decode) == DidOf(b, decode)
    ensures UrlDecode(a.x, decode) != UrlDecode(b.x, decode)
  {
    var x1: seq<Byte>, y1: seq<Byte>, x2: seq<Byte>, y2: seq<Byte> := [1], [2, 3], [1, 2], [3];
    a := Jwk("EC", Some("P-256"), UrlEncode(x1), Some(UrlEncode(y1)));
    b := Jwk("EC", Some("P-256"), UrlEncode(x2), Some(UrlEncode(y2)));
    UrlDecodeUndoesUrlEncode(x1, decode);
    UrlDecodeUndoesUrlEncode(y1, decode);
    UrlDecodeUndoesUrlEncode(x2, decode);
    UrlDecodeUndoesUrlEncode(y2, decode);
    assert |UrlEncode(y1)| == |Sextets(y1)| == 3 && |UrlEncode(y2)| == |Sextets(y2)| == 2;
    assert x1 + y1 == x2 + y2;
    DidCollision(a, b, decode);
  }

  // ---------------------------------------------------------------------------------------------
  // From stored key bytes back to a public key
  // ---------------------------------------------------------------------------------------------

  /** didKeyToPublicKey up to the jose call: the curve is decided by the point's length alone. */
  function PublicKeyOf(raw: seq<Byte>, keyType: KeyType): Result<PublicJwk> {
    match keyType
    case Ed25519VerificationKey2020 => Ok(PublicJwk("OKP", "Ed25519", UrlEncode(raw), None))
    case JsonWebKey2020 =>
      if |raw| < 3 || raw[0] != 0x04 then Err(InvalidPoint)
      else if (|raw| - 1) % 2 != 0 then Err(UnsupportedLength)
      else
        var pointLen := (|raw| - 1) / 2;
        var x := UrlEncode(raw[1..1 + pointLen]);
        var y := UrlEncode(raw[1 + pointLen..]);
        if pointLen == 32 then Ok(PublicJwk("EC", "P-256", x, Some(y)))
        else if pointLen == 48 then Ok(PublicJwk("EC", "P-384", x, Some(y)))
        else if pointLen == 66 then Ok(PublicJwk("EC", "P-521", x, Some(y)))
        else Err(UnsupportedLength)
  }

  /** Which key bytes resolve to which curve, and each refusal. */
  lemma PublicKeyAnswers(raw: seq<Byte>)
    ensures PublicKeyOf(raw, Ed25519VerificationKey2020) == Ok(PublicJwk("OKP", "Ed25519", UrlEncode(raw), None))
    ensures var r := PublicKeyOf(raw, JsonWebKey2020);
      && (r == Err(InvalidPoint) <==> |raw| < 3 || raw[0] != 4)
      && (r == Err(UnsupportedLength) <==> |raw| >= 3 && raw[0] == 4 && |raw| !in {65, 97, 133})
      && (r.Ok? <==> |raw| >= 3 && raw[0] == 4 && |raw| in {65, 97, 133})
      && (r.Ok? ==>
            && r.value.kty == "EC" && r.value.x == UrlEncode(raw[1..(|raw| + 1) / 2]) && r.value.y == Some(UrlEncode(raw[(|raw| + 1) / 2..]))
            && r.value.crv == if |raw| == 65 then "P-256" else if |raw| == 97 then "P-384" else "P-521")
  {
  }

  /** The coordinate length each supported curve calls for (SEC 1 section 2.3.5). */
  function CoordinateLength(crv: string): nat {
    if crv == "P-256" then 32 else if crv == "P-384" then 48 else if crv == "P-521" then 66 else 0
  }

  lemma PointSplits(x: seq<Byte>, y: seq<Byte>)
    requires |x| == |y|
    ensures Point(x, y)[1..1 + |x|] == x && Point(x, y)[1 + |x|..] == y
  {
  }

  /** Unpacking returns the packed coordinates and curve exactly when both have the curve's length. */
  lemma UnpackUndoesPack(x: seq<Byte>, y: seq<Byte>, crv: string)
    requires CurvePrefix(crv).Ok?
    ensures PublicKeyOf(Point(x, y), JsonWebKey2020) == Ok(PublicJwk("EC", crv, UrlEncode(x), Some(UrlEncode(y))))
       <==> |x| == |y| == CoordinateLength(crv)
  {
    var raw := Point(x, y);
    var n := (|raw| - 1) / 2;
    var r := PublicKeyOf(raw, JsonWebKey2020);
    if |x| == |y| {
      PointSplits(x, y);
    }
    if r == Ok(PublicJwk("EC", crv, UrlEncode(x), Some(UrlEncode(y)))) {
      UrlEncodeIsInjective(raw[1..1 + n], x);
      UrlEncodeIsInjective(raw[1 + n..], y);
    }
  }

  /** Registering a canonically encoded key and resolving it returns that key, exactly when its lengths are the curve's. */
  lemma RegisterThenResolve(x: seq<Byte>, y: seq<Byte>, crv: string, decode: string -> seq<Byte>)
    requires DecodesBase64(decode) && CurvePrefix(crv).Ok? && y != []
    ensures var k := KeyInfoOf(Jwk("EC", Some(crv), UrlEncode(x), Some(UrlEncode(y))), decode);
      k.Ok? && (PublicKeyOf(k.value.raw, k.value.keyType) == Ok(PublicJwk("EC", crv, UrlEncode(x), Some(UrlEncode(y))))
                <==> |x| == |y| == CoordinateLength(crv))
  {
    UrlDecodeUndoesUrlEncode(x, decode);
    UrlDecodeUndoesUrlEncode(y, decode);
    assert |UrlEncode(y)| == |Sextets(y)| >= 2;
    UnpackUndoesPack(x, y, crv);
  }
}
