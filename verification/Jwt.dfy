/** Compact EdDSA tokens (src/jwt.rs): parsing, the signature check and the time claims.

    Base64url, JSON, hex and Ed25519 are library code; they enter as arbitrary functions. */
module Jwt {
  import opened Wrappers
  import opened Time
  import opened Domain
  import opened Windows

  type Bytes = seq<Byte>

  datatype VerifyingKey = VerifyingKey(point: Bytes)

  // `sigOk` is `verify_strict` on a signing input and 64 signature bytes; `point` is the decoding of
  // 32 bytes into a key.
  datatype Lib = Lib(
    base64: string -> Option<Bytes>,
    json: Bytes -> Option<Json>,
    hex: string -> Option<Bytes>,
    point: Bytes -> Option<VerifyingKey>,
    sigOk: (VerifyingKey, string, Bytes) -> bool)

  datatype VerifyError =
    | Malformed
    | InvalidSignature
    | MissingClaim(claim: string)
    | InvalidClaim(claim: string)
    | WrongIssuer
    | NotYetValid
    | Expired
    | ChainInconsistent

  const ISSUER := "licenselatte"

  /******* Splitting at the dots *******/

  function SplitDots(s: string): (parts: seq<string>)
    ensures |parts| >= 1
  {
    if s == [] then [[]]
    else
      var parts := SplitDots(s[1..]);
      if s[0] == '.' then [[]] + parts else [[s[0]] + parts[0]] + parts[1..]
  }

  function JoinDots(parts: seq<string>): string
    requires |parts| >= 1
  {
    if |parts| == 1 then parts[0] else parts[0] + "." + JoinDots(parts[1..])
  }

  /******* Claims *******/

  const I64_MAX := 0x7FFF_FFFF_FFFF_FFFF
  const I64_MIN := -0x8000_0000_0000_0000

  // `f as i64`: towards zero, and saturating.
  function ToI64(r: real): (i: int)
    ensures -9_223_372_036_854_775_808 <= i <= 9_223_372_036_854_775_807
    ensures 0.0 <= r <= 9_223_372_036_854_775_807.0 ==> i as real <= r < i as real + 1.0
    ensures -9_223_372_036_854_775_808.0 <= r < 0.0 ==> i as real - 1.0 < r <= i as real
    ensures r > 9_223_372_036_854_775_807.0 ==> i == 9_223_372_036_854_775_807
    ensures r < -9_223_372_036_854_775_808.0 ==> i == -9_223_372_036_854_775_808
  {
    var t := if r >= 0.0 then r.Floor else -(-r).Floor;
    if t > I64_MAX then I64_MAX else if t < I64_MIN then I64_MIN else t
  }

  function ClaimI64(claims: Claims, name: string): Option<int> {
    if name in claims && claims[name].Num? then Some(ToI64(claims[name].r)) else None
  }

  // `r` without its fraction, or the nearest of the 64-bit integers.
  predicate CutTo64(r: real, i: int) {
    if r > 9_223_372_036_854_775_807.0 then i == 9_223_372_036_854_775_807
    else if r < -9_223_372_036_854_775_808.0 then i == -9_223_372_036_854_775_808
    else if r >= 0.0 then i as real <= r < i as real + 1.0
    else i as real - 1.0 < r <= i as real
  }

  lemma OneCut(r: real, i: int, j: int)
    requires CutTo64(r, i) && CutTo64(r, j)
    ensures i == j
  {
    assert (i as real) - (j as real) == (i - j) as real;
  }

  // A claim is read as an integer exactly when it is a number, cut to 64 bits.
  lemma {:induction false} NumericClaimIff(claims: Claims, name: string, i: int)
    ensures ClaimI64(claims, name) == Some(i) <==>
            name in claims && claims[name].Num? && CutTo64(claims[name].r, i)
  {
    if name in claims && claims[name].Num? {
      assert CutTo64(claims[name].r, ToI64(claims[name].r));
      if CutTo64(claims[name].r, i) {
        OneCut(claims[name].r, i, ToI64(claims[name].r));
      }
    }
  }

  function ClaimStr(claims: Claims, name: string): Option<string> {
    if name in claims && claims[name].Str? then Some(claims[name].s) else None
  }

  function StrOr(s: Option<string>, default: string): string {
    if s.Some? then s.value else default
  }

  function IntOr(i: Option<int>, default: int): int {
    if i.Some? then i.value else default
  }

  /******* Time claims *******/

  // Whole seconds since 1970, and zero before it.
  function NowUnix(now: Instant): int {
    if now >= 0 then now / SECOND else 0
  }

  // `u64::MAX` of leeway skips the time claims; otherwise there is none, and `exp` may be ignored.
  datatype TimeMode = Strict | IgnoreExpiry | InfiniteLeeway

  function CheckTimeClaims(claims: Claims, now: Instant, mode: TimeMode): Result<(), VerifyError> {
    var iat, nbf, exp := ClaimI64(claims, "iat"), ClaimI64(claims, "nbf"), ClaimI64(claims, "exp");
    if mode.InfiniteLeeway? then Ok(())
    else if iat.Some? && iat.value > NowUnix(now) then Err(NotYetValid)
    else if nbf.Some? && nbf.value > NowUnix(now) then Err(NotYetValid)
    else if mode.Strict? && exp.Some? && exp.value < NowUnix(now) then Err(Expired)
    else Ok(())
  }

  /******* Parsing and verifying *******/

  function Decode(lib: Lib, part: string): Result<Json, VerifyError> {
    var bytes := lib.base64(part);
    if bytes.None? then Err(Malformed)
    else
      var value := lib.json(bytes.value);
      if value.None? then Err(Malformed) else Ok(value.value)
  }

  predicate IsEdDsa(header: Json) {
    header.Obj? && ClaimStr(header.fields, "alg") == Some("EdDSA")
  }

  function ParseAndVerify(lib: Lib, token: string, key: VerifyingKey, now: Instant, mode: TimeMode)
    : Result<Claims, VerifyError>
  {
    var parts := SplitDots(token);
    if |parts| != 3 then Err(Malformed)
    else
      var header :- Decode(lib, parts[0]);
      if !IsEdDsa(header) then Err(Malformed)
      else
        var payload :- Decode(lib, parts[1]);
        if !payload.Obj? then Err(Malformed)
        else
          var sig := lib.base64(parts[2]);
          if sig.None? || |sig.value| != 64 then Err(Malformed)
          else if !lib.sigOk(key, parts[0] + "." + parts[1], sig.value) then Err(InvalidSignature)
          else if ClaimStr(payload.fields, "iss") != Some(ISSUER) then Err(WrongIssuer)
          else
            var _ :- CheckTimeClaims(payload.fields, now, mode);
            Ok(payload.fields)
  }

  // The parts of parsing that no clock decides.
  function Authentic(lib: Lib, token: string, key: VerifyingKey): Result<Claims, VerifyError> {
    ParseAndVerify(lib, token, key, 0, InfiniteLeeway)
  }

  /******* What a signature covers *******/

  lemma {:induction false} PartsHaveNoDots(s: string)
    ensures forall p :: p in SplitDots(s) ==> '.' !in p
  {
    if s == [] {
    } else {
      PartsHaveNoDots(s[1..]);
    }
  }

  lemma {:induction false} JoinUndoesSplit(s: string)
    ensures JoinDots(SplitDots(s)) == s
  {
    if s == [] {
    } else {
      var parts := SplitDots(s[1..]);
      JoinUndoesSplit(s[1..]);
      if s[0] == '.' {
        assert ([[]] + parts)[1..] == parts;
      } else {
        assert ([[s[0]] + parts[0]] + parts[1..])[1..] == parts[1..];
      }
    }
  }

  lemma {:induction false} SplitsAtDot(part: string, rest: string)
    requires '.' !in part
    ensures SplitDots(part + "." + rest) == [part] + SplitDots(rest)
  {
    var s := part + "." + rest;
    if part == [] {
      assert s[1..] == rest;
    } else {
      assert s[1..] == part[1..] + "." + rest;
      SplitsAtDot(part[1..], rest);
      assert [s[0]] + part[1..] == part;
      assert ([part[1..]] + SplitDots(rest))[1..] == SplitDots(rest);
    }
  }

  lemma {:induction false} NoDotNoSplit(part: string)
    requires '.' !in part
    ensures SplitDots(part) == [part]
  {
    if part == [] {
    } else {
      NoDotNoSplit(part[1..]);
      assert [part[0]] + part[1..] == part;
    }
  }

  // Splitting and joining are inverse, so a token is read as the parts it was made from.
  lemma {:induction false} SplitUndoesJoin(parts: seq<string>)
    requires |parts| >= 1 && forall p :: p in parts ==> '.' !in p
    ensures SplitDots(JoinDots(parts)) == parts
  {
    if |parts| == 1 {
      NoDotNoSplit(parts[0]);
    } else {
      SplitUndoesJoin(parts[1..]);
      SplitsAtDot(parts[0], JoinDots(parts[1..]));
    }
  }

  predicate IsLastDot(token: string, i: nat) {
    i < |token| && token[i] == '.' && '.' !in token[i + 1..]
  }

  // Whether `key` signed the bytes before the last dot of `token`, with the signature after it.
  ghost predicate Signed(lib: Lib, token: string, key: VerifyingKey) {
    exists i: nat ::
      IsLastDot(token, i)
      && var sig := lib.base64(token[i + 1..]);
         sig.Some? && |sig.value| == 64 && lib.sigOk(key, token[..i], sig.value)
  }

  lemma {:induction false} ThreeParts(token: string)
    requires |SplitDots(token)| == 3
    ensures var p := SplitDots(token);
            var i := |p[0] + "." + p[1]|;
            IsLastDot(token, i) && token[..i] == p[0] + "." + p[1] && token[i + 1..] == p[2]
  {
    var p := SplitDots(token);
    PartsHaveNoDots(token);
    JoinUndoesSplit(token);
    assert p[2] in p;
    assert JoinDots(p[1..]) == p[1] + "." + p[2];
    assert token == (p[0] + "." + p[1]) + "." + p[2];
  }

  // An accepted token's signature covers exactly its bytes before the last dot.
  lemma {:induction false} AcceptedIsSigned(lib: Lib, token: string, key: VerifyingKey, now: Instant, mode: TimeMode)
    requires ParseAndVerify(lib, token, key, now, mode).Ok?
    ensures Signed(lib, token, key)
  {
    ThreeParts(token);
  }

  predicate Parts(token: string, h: string, p: string, g: string) {
    '.' !in h && '.' !in p && '.' !in g && token == h + "." + p + "." + g
  }

  // `part` is the base64url form of the JSON object with these fields.
  predicate Encodes(lib: Lib, part: string, fields: Claims) {
    lib.base64(part).Some? && lib.json(lib.base64(part).value) == Some(Obj(fields))
  }

  // The parts decode to an EdDSA header, the given claims and 64 bytes of signature.
  ghost predicate PartsDecode(lib: Lib, h: string, p: string, g: string, claims: Claims) {
    && (exists header :: Encodes(lib, h, header) && "alg" in header && header["alg"] == Str("EdDSA"))
    && Encodes(lib, p, claims)
    && lib.base64(g).Some? && |lib.base64(g).value| == 64
  }

  predicate OfTheIssuer(claims: Claims) {
    "iss" in claims && claims["iss"] == Str("licenselatte")
  }

  // The claims are issued by LicenseLatte, and `key` signed the first two parts.
  ghost predicate PartsSay(lib: Lib, h: string, p: string, g: string, key: VerifyingKey, claims: Claims) {
    && PartsDecode(lib, h, p, g, claims) && OfTheIssuer(claims)
    && lib.sigOk(key, h + "." + p, lib.base64(g).value)
  }

  // What it means for a token signed by `key` to say `claims`, without a word about how it is read.
  ghost predicate Says(lib: Lib, token: string, key: VerifyingKey, claims: Claims) {
    exists h, p, g :: Parts(token, h, p, g) && PartsSay(lib, h, p, g, key, claims)
  }

  lemma {:induction false} PartsAreUnique(token: string, h: string, p: string, g: string)
    ensures Parts(token, h, p, g) <==> SplitDots(token) == [h, p, g]
  {
    var parts := [h, p, g];
    assert JoinDots(parts[1..]) == p + "." + g;
    assert JoinDots(parts) == h + "." + (p + "." + g) == h + "." + p + "." + g;
    if Parts(token, h, p, g) {
      SplitUndoesJoin(parts);
    }
    if SplitDots(token) == parts {
      JoinUndoesSplit(token);
      PartsHaveNoDots(token);
      assert h in parts && p in parts && g in parts;
    }
  }

  // Parsing hears exactly what the token says.
  lemma {:induction false} AuthenticIffSays(lib: Lib, token: string, key: VerifyingKey, claims: Claims)
    ensures Authentic(lib, token, key) == Ok(claims) <==> Says(lib, token, key, claims)
  {
    var parts := SplitDots(token);
    if Says(lib, token, key, claims) {
      var h, p, g :| Parts(token, h, p, g) && PartsSay(lib, h, p, g, key, claims);
      PartsAreUnique(token, h, p, g);
    }
    if Authentic(lib, token, key) == Ok(claims) {
      assert parts == [parts[0], parts[1], parts[2]];
      PartsAreUnique(token, parts[0], parts[1], parts[2]);
      assert PartsSay(lib, parts[0], parts[1], parts[2], key, claims);
    }
  }

  ghost predicate WellFormedToken(lib: Lib, token: string) {
    exists h, p, g, claims :: Parts(token, h, p, g) && PartsDecode(lib, h, p, g, claims)
  }

  // Which error a token gets: malformed if it is not three parts that decode; otherwise a bad
  // signature counts before a wrong issuer.
  lemma {:induction false} ErrorsRankFormSignatureIssuer(lib: Lib, token: string, key: VerifyingKey)
    ensures Authentic(lib, token, key) == Err(Malformed) <==> !WellFormedToken(lib, token)
    ensures forall h, p, g, claims :: Parts(token, h, p, g) && PartsDecode(lib, h, p, g, claims) ==>
              Authentic(lib, token, key)
              == if !lib.sigOk(key, h + "." + p, lib.base64(g).value) then Err(InvalidSignature)
                 else if !OfTheIssuer(claims) then Err(WrongIssuer)
                 else Ok(claims)
  {
    var parts := SplitDots(token);
    forall h, p, g, claims | Parts(token, h, p, g) && PartsDecode(lib, h, p, g, claims)
      ensures parts == [h, p, g]
    {
      PartsAreUnique(token, h, p, g);
    }
    if Authentic(lib, token, key) != Err(Malformed) {
      assert parts == [parts[0], parts[1], parts[2]];
      PartsAreUnique(token, parts[0], parts[1], parts[2]);
      assert PartsDecode(lib, parts[0], parts[1], parts[2], Decode(lib, parts[1]).value.fields);
    }
  }

  /******* When the time claims hold *******/

  // A claimed lower bound; one at or before 1970 binds no reading of the clock.
  function NotBefore(secs: Option<int>): Option<Instant> {
    if secs.Some? && secs.value > 0 then Some(UnixToInstant(secs.value)) else None
  }

  // The instants at which the time claims of a certificate hold: from its `iat` and `nbf`, to the
  // last nanosecond of the second `exp` names. An `exp` before 1970 holds at no reading.
  function CertWindow(claims: Claims, mode: TimeMode): Window {
    var exp := ClaimI64(claims, "exp");
    if mode.InfiniteLeeway? then ALWAYS
    else if mode.Strict? && exp.Some? && exp.value < 0 then Never
    else Span(Later(NotBefore(ClaimI64(claims, "iat")), NotBefore(ClaimI64(claims, "nbf"))),
              if mode.Strict? && exp.Some? then Some(UnixToInstant(exp.value + 1) - 1) else None)
  }

  // And the error says on which side of it the clock is: too early counts first.
  lemma CertWindowIsExact(claims: Claims, now: Instant, mode: TimeMode)
    ensures CheckTimeClaims(claims, now, mode).Ok? <==> CertWindow(claims, mode).Contains(now)
    ensures CheckTimeClaims(claims, now, mode).Err? ==>
              var from := Later(NotBefore(ClaimI64(claims, "iat")), NotBefore(ClaimI64(claims, "nbf")));
              CheckTimeClaims(claims, now, mode).error
              == if from.Some? && now < from.value then NotYetValid else Expired
  {
    SecondsBound(now, IntOr(ClaimI64(claims, "iat"), 0));
    SecondsBound(now, IntOr(ClaimI64(claims, "nbf"), 0));
    SecondsBound(now, IntOr(ClaimI64(claims, "exp"), 0));
  }

  lemma SecondsBound(now: Instant, secs: int)
    ensures secs > 0 ==> (secs <= NowUnix(now) <==> UnixToInstant(secs) <= now)
    ensures secs >= 0 ==> (NowUnix(now) <= secs <==> now <= UnixToInstant(secs + 1) - 1)
  {
  }

  // Neither the clock nor the key decides what a token says: they only decide whether it is heard.
  lemma {:induction false} ParsesIffAuthenticInWindow(lib: Lib, token: string, key: VerifyingKey, now: Instant,
                                                      mode: TimeMode)
    ensures ParseAndVerify(lib, token, key, now, mode).Ok? <==>
            Authentic(lib, token, key).Ok? && CertWindow(Authentic(lib, token, key).value, mode).Contains(now)
    ensures ParseAndVerify(lib, token, key, now, mode).Ok? ==>
            ParseAndVerify(lib, token, key, now, mode) == Authentic(lib, token, key)
  {
    if Authentic(lib, token, key).Ok? {
      CertWindowIsExact(Authentic(lib, token, key).value, now, mode);
    }
  }

  lemma {:induction false} KeysAgreeOnClaims(lib: Lib, token: string, k: VerifyingKey, k': VerifyingKey)
    requires Authentic(lib, token, k).Ok? && Authentic(lib, token, k').Ok?
    ensures Authentic(lib, token, k) == Authentic(lib, token, k')
  {
  }
}
