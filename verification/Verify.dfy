/** Chain verification (src/verify.rs): master, submaster, project, daily, activation token. */
module Verify {
  import opened Wrappers
  import opened Time
  import opened Domain
  import opened Jwt
  import Calendar

  // 2099-01-01T00:00:00Z.
  const NO_LICENCE_END := 4_070_908_800
  const MAX_GRACE_PERIOD: Duration := 90 * DAY

  /******* Keys *******/

  function KeyFromBytes(lib: Lib, bytes: Bytes): Result<VerifyingKey, VerifyError> {
    if |bytes| != 32 || lib.point(bytes).None? then Err(InvalidClaim("pubkey")) else Ok(lib.point(bytes).value)
  }

  function KeyFromCert(lib: Lib, claims: Claims, field: string): Result<VerifyingKey, VerifyError> {
    var hex := ClaimStr(claims, field);
    if hex.None? then Err(MissingClaim(field))
    else
      var bytes := lib.hex(hex.value);
      if bytes.None? then Err(InvalidClaim(field)) else KeyFromBytes(lib, bytes.value)
  }

  /******* The submaster certificate, signed by any trusted master *******/

  // The claims as the first master that verifies them gives them; otherwise the last master's error.
  function TryMasters(lib: Lib, masters: seq<VerifyingKey>, token: string, now: Instant, mode: TimeMode)
    : Result<Claims, VerifyError>
  {
    if masters == [] then Err(InvalidSignature)
    else
      var first := ParseAndVerify(lib, token, masters[0], now, mode);
      if first.Ok? || |masters| == 1 then first else TryMasters(lib, masters[1..], token, now, mode)
  }

  method VerifySubmaster(lib: Lib, masters: seq<VerifyingKey>, token: string, now: Instant)
    returns (sub: Result<Claims, VerifyError>)
    ensures sub == TryMasters(lib, masters, token, now, Strict)
  {
    sub := Err(InvalidSignature);
    var i := 0;
    while i < |masters|
      invariant i <= |masters| && sub.Err?
      invariant i == 0 ==> sub == Err(InvalidSignature)
      invariant i > 0 ==> sub == ParseAndVerify(lib, token, masters[i - 1], now, Strict)
      invariant i < |masters| ==>
                  TryMasters(lib, masters, token, now, Strict) == TryMasters(lib, masters[i..], token, now, Strict)
      invariant 0 < i == |masters| ==> TryMasters(lib, masters, token, now, Strict) == sub
    {
      sub := ParseAndVerify(lib, token, masters[i], now, Strict);
      if sub.Ok? {
        break;
      }
      i := i + 1;
    }
  }

  /******* The licence an activation token claims *******/

  function LicenseTypeOf(s: string): LicenseType {
    if s == "perpetual" then Perpetual else if s == "expiring" then Expiring else Other(s)
  }

  function MetadataOf(claims: Claims): map<string, string> {
    if "pmd" in claims && claims["pmd"].Obj? then
      var pmd := claims["pmd"].fields;
      map k | k in pmd && pmd[k].Str? :: pmd[k].s
    else map[]
  }

  method CollectMetadata(claims: Claims) returns (metadata: map<string, string>)
    ensures metadata == MetadataOf(claims)
  {
    metadata := map[];
    if "pmd" in claims && claims["pmd"].Obj? {
      var pmd := claims["pmd"].fields;
      var rest := pmd.Keys;
      while rest != {}
        invariant rest <= pmd.Keys
        invariant metadata == map k | k in pmd && k !in rest && pmd[k].Str? :: pmd[k].s
        decreases rest
      {
        var k :| k in rest;
        if pmd[k].Str? {
          metadata := metadata[k := pmd[k].s];
        }
        rest := rest - {k};
      }
    }
  }

  // The licence's end in seconds: `exp` next to a `grc`, otherwise `lex`, otherwise 2099.
  function EndSecs(claims: Claims): int {
    if ClaimI64(claims, "grc").Some? then IntOr(ClaimI64(claims, "exp"), 0)
    else IntOr(ClaimI64(claims, "lex"), NO_LICENCE_END)
  }

  // The grace period in seconds: `grc`, or without it the time from `iat` to `exp`.
  function GraceSecs(claims: Claims): int {
    var grc := ClaimI64(claims, "grc");
    if grc.Some? then grc.value
    else IntOr(ClaimI64(claims, "exp"), 0) - IntOr(ClaimI64(claims, "iat"), 0)
  }

  // `Duration::from_secs(secs.max(0))`.
  function AsDuration(secs: int): Duration {
    if secs > 0 then secs * SECOND else 0
  }

  // The `ent` claim as it stands; narrowing its values is not part of this model.
  function EntitlementsOf(claims: Claims): Option<Claims> {
    if "ent" in claims && claims["ent"].Obj? then Some(claims["ent"].fields) else None
  }

  function LicenseOf(claims: Claims): License {
    License(
      StrOr(ClaimStr(claims, "sub"), ""),
      StrOr(ClaimStr(claims, "alias"), ""),
      StrOr(ClaimStr(claims, "aid"), ""),
      StrOr(ClaimStr(claims, "pid"), ""),
      StrOr(ClaimStr(claims, "mid"), ""),
      UnixToInstant(IntOr(ClaimI64(claims, "iat"), 0)),
      UnixToInstant(EndSecs(claims)),
      AsDuration(GraceSecs(claims)),
      LicenseTypeOf(StrOr(ClaimStr(claims, "ltype"), "")),
      MetadataOf(claims),
      EntitlementsOf(claims))
  }

  /******* Cross-checks *******/

  function CrossCheck(lic: License, project: Claims, daily: Claims): Result<(), VerifyError> {
    var pid := ClaimStr(project, "pid");
    var iat, exp := ClaimI64(daily, "iat"), ClaimI64(daily, "exp");
    if pid.Some? && pid.value != "" && pid.value != lic.projectId then Err(ChainInconsistent)
    else if iat.None? then Err(MissingClaim("iat"))
    else if exp.None? then Err(MissingClaim("exp"))
    else if lic.issuedAt < UnixToInstant(iat.value) then Err(ChainInconsistent)
    else if lic.issuedAt > UnixToInstant(exp.value) then Err(ChainInconsistent)
    else if lic.gracePeriod > MAX_GRACE_PERIOD then Err(ChainInconsistent)
    else Ok(())
  }

  /******* The chain *******/

  // A verified chain: the claims of its certificates and the licence its token claims.
  datatype Chain = Chain(submaster: Claims, project: Claims, daily: Claims, lic: License)

  // One link: the key `claims` names in `field` must verify `token`.
  function VerifyLink(lib: Lib, claims: Claims, field: string, token: string, now: Instant, mode: TimeMode)
    : Result<Claims, VerifyError>
  {
    var key :- KeyFromCert(lib, claims, field);
    ParseAndVerify(lib, token, key, now, mode)
  }

  // The last link: no clock decides it.
  function VerifyToken(lib: Lib, sub: Claims, project: Claims, daily: Claims, token: string): Result<Chain, VerifyError>
  {
    var claims :- VerifyLink(lib, daily, "dpk", token, 0, InfiniteLeeway);
    var _ :- CrossCheck(LicenseOf(claims), project, daily);
    Ok(Chain(sub, project, daily, LicenseOf(claims)))
  }

  // Every link below the submaster certificate, whose claims are given.
  function VerifyLinks(lib: Lib, sub: Claims, rec: Record, now: Instant, certs: TimeMode, daily: TimeMode)
    : Result<Chain, VerifyError>
  {
    var project :- VerifyLink(lib, sub, "spk", rec.chain.project, now, certs);
    var dailyClaims :- VerifyLink(lib, project, "ppk", rec.chain.daily, now, daily);
    VerifyToken(lib, sub, project, dailyClaims, rec.token)
  }

  function VerifyChain(lib: Lib, masters: seq<VerifyingKey>, rec: Record, now: Instant, certs: TimeMode,
                       daily: TimeMode)
    : Result<Chain, VerifyError>
  {
    var sub :- TryMasters(lib, masters, rec.chain.submaster, now, certs);
    VerifyLinks(lib, sub, rec, now, certs, daily)
  }

  // `verify_activation_any_at`: the daily certificate's `exp` is not checked against the clock.
  function VerifyActivation(lib: Lib, masters: seq<VerifyingKey>, rec: Record, now: Instant)
    : Result<License, VerifyError>
  {
    var chain :- VerifyChain(lib, masters, rec, now, Strict, IgnoreExpiry);
    Ok(chain.lic)
  }

  // What the two formats mean by their times. With `grc` the licence ends at `exp` and the offline
  // deadline is `iat + grc`; without it the deadline is `exp`, if that is not before `iat`, and the
  // licence ends at `lex`, or in 2099. A deadline before `iat` reads as no grace at all.
  ghost predicate TimesMean(claims: Claims, lic: License) {
    var latest := 86_400 * Calendar.DayCount(Calendar.Date(2099, 1, 1));
    var iat, exp := IntOr(ClaimI64(claims, "iat"), 0), IntOr(ClaimI64(claims, "exp"), 0);
    var grc, lex := ClaimI64(claims, "grc"), ClaimI64(claims, "lex");
    var deadline := lic.issuedAt + lic.gracePeriod;
    && lic.issuedAt == UnixToInstant(iat)
    && (grc.Some? ==>
          && lic.expiresAt == UnixToInstant(exp)
          && deadline == UnixToInstant(if grc.value >= 0 then iat + grc.value else iat))
    && (grc.None? ==>
          && lic.expiresAt == UnixToInstant(if lex.Some? then lex.value else latest)
          && deadline == UnixToInstant(if exp >= iat then exp else iat))
  }

  // `s` is the text of the claim, or empty when there is none.
  predicate TextIs(claims: Claims, name: string, s: string) {
    s == if name in claims && claims[name].Str? then claims[name].s else ""
  }

  // The licence type is named by two words; any other text names itself.
  predicate TypeMeans(claims: Claims, t: LicenseType) {
    match t
    case Perpetual => TextIs(claims, "ltype", "perpetual")
    case Expiring => TextIs(claims, "ltype", "expiring")
    case Other(name) => TextIs(claims, "ltype", name) && name != "perpetual" && name != "expiring"
  }

  predicate HasMetadata(claims: Claims, k: string) {
    "pmd" in claims && claims["pmd"].Obj? && k in claims["pmd"].fields && claims["pmd"].fields[k].Str?
  }

  // The metadata are the entries that are texts.
  ghost predicate MetadataMean(claims: Claims, metadata: map<string, string>) {
    && (forall k :: k in metadata <==> HasMetadata(claims, k))
    && (forall k :: k in metadata ==> claims["pmd"].fields[k] == Str(metadata[k]))
  }

  predicate EntitlementsMean(claims: Claims, ent: Option<Claims>) {
    if "ent" in claims && claims["ent"].Obj? then ent.Some? && claims["ent"] == Obj(ent.value) else ent.None?
  }

  // What the claims mean besides times: who holds the licence for what, its type, metadata and entitlements.
  ghost predicate FieldsMean(claims: Claims, lic: License) {
    && TextIs(claims, "sub", lic.key) && TextIs(claims, "alias", lic.alias) && TextIs(claims, "aid", lic.activationId)
    && TextIs(claims, "pid", lic.projectId) && TextIs(claims, "mid", lic.machineId)
    && TypeMeans(claims, lic.licenseType) && MetadataMean(claims, lic.metadata)
    && EntitlementsMean(claims, lic.entitlements)
  }

  ghost predicate LicenceMeans(claims: Claims, lic: License) {
    TimesMean(claims, lic) && FieldsMean(claims, lic)
  }

  lemma MetadataAreRead(claims: Claims)
    ensures MetadataMean(claims, MetadataOf(claims))
  {
  }

  lemma TypeIsRead(claims: Claims)
    ensures TypeMeans(claims, LicenseTypeOf(StrOr(ClaimStr(claims, "ltype"), "")))
  {
  }

  lemma TextIsRead(claims: Claims, name: string)
    ensures TextIs(claims, name, StrOr(ClaimStr(claims, name), ""))
  {
  }

  lemma FieldsAreRead(claims: Claims)
    ensures FieldsMean(claims, LicenseOf(claims))
  {
    TextIsRead(claims, "sub");
    TextIsRead(claims, "alias");
    TextIsRead(claims, "aid");
    TextIsRead(claims, "pid");
    TextIsRead(claims, "mid");
    TypeIsRead(claims);
    MetadataAreRead(claims);
  }

  lemma OneType(claims: Claims, a: LicenseType, b: LicenseType)
    requires TypeMeans(claims, a) && TypeMeans(claims, b)
    ensures a == b
  {
    assert "perpetual"[0] == 'p' && "expiring"[0] == 'e';
  }

  lemma OneMetadata(claims: Claims, a: map<string, string>, b: map<string, string>)
    requires MetadataMean(claims, a) && MetadataMean(claims, b)
    ensures a == b
  {
    assert forall k :: k in a <==> k in b;
  }

  lemma OneMeaning(claims: Claims, a: License, b: License)
    requires LicenceMeans(claims, a) && LicenceMeans(claims, b)
    ensures a == b
  {
    OneType(claims, a.licenseType, b.licenseType);
    OneMetadata(claims, a.metadata, b.metadata);
  }

  // The licence of a token's claims is the one licence they mean.
  lemma LicenceIsWhatClaimsMean(claims: Claims, lic: License)
    ensures LicenceMeans(claims, lic) <==> lic == LicenseOf(claims)
  {
    FieldsAreRead(claims);
    LicenceEndIsIn2099();
    assert TimesMean(claims, LicenseOf(claims));
    if LicenceMeans(claims, lic) {
      OneMeaning(claims, lic, LicenseOf(claims));
    }
  }

  lemma LicenceEndIsIn2099()
    ensures NO_LICENCE_END == 86_400 * Calendar.DayCount(Calendar.Date(2099, 1, 1))
  {
    Calendar.FormulaCountsDays(2099, 1, 1);
  }

  // Reads the licence out of an activation token's claims, in either format.
  method ReadLicense(claims: Claims) returns (lic: License)
    ensures lic == LicenseOf(claims) && LicenceMeans(claims, lic)
  {
    LicenceIsWhatClaimsMean(claims, LicenseOf(claims));
    var iat := IntOr(ClaimI64(claims, "iat"), 0);
    var exp := IntOr(ClaimI64(claims, "exp"), 0);
    var end, grace;
    if ClaimI64(claims, "grc").Some? {
      end, grace := exp, ClaimI64(claims, "grc").value;
    } else {
      end, grace := IntOr(ClaimI64(claims, "lex"), NO_LICENCE_END), exp - iat;
    }
    var metadata := CollectMetadata(claims);
    lic := License(
      StrOr(ClaimStr(claims, "sub"), ""), StrOr(ClaimStr(claims, "alias"), ""), StrOr(ClaimStr(claims, "aid"), ""),
      StrOr(ClaimStr(claims, "pid"), ""), StrOr(ClaimStr(claims, "mid"), ""),
      UnixToInstant(iat), UnixToInstant(end), AsDuration(grace),
      LicenseTypeOf(StrOr(ClaimStr(claims, "ltype"), "")), metadata, EntitlementsOf(claims));
  }

  // A project certificate that names a project names the licence's.
  predicate SameProject(lic: License, project: Claims) {
    var pid := ClaimStr(project, "pid");
    pid.Some? && pid.value != "" ==> pid.value == lic.projectId
  }

  // The claims that tie a licence to its certificates: one project, an issue within the daily
  // certificate's own day, and no more than 90 days of grace.
  predicate Consistent(lic: License, project: Claims, daily: Claims) {
    var iat, exp := ClaimI64(daily, "iat"), ClaimI64(daily, "exp");
    && SameProject(lic, project)
    && iat.Some? && exp.Some?
    && UnixToInstant(iat.value) <= lic.issuedAt <= UnixToInstant(exp.value)
    && lic.gracePeriod <= 90 * DAY
  }

  // The checks between the links. They pass exactly for consistent claims; a wrong project counts
  // before missing times, and these before an inconsistency of times.
  method CheckLinks(lic: License, project: Claims, daily: Claims) returns (r: Result<(), VerifyError>)
    ensures r == CrossCheck(lic, project, daily)
    ensures r.Ok? <==> Consistent(lic, project, daily)
    ensures var iat, exp := ClaimI64(daily, "iat"), ClaimI64(daily, "exp");
            && (r == Err(MissingClaim("iat")) <==> SameProject(lic, project) && iat.None?)
            && (r == Err(MissingClaim("exp")) <==> SameProject(lic, project) && iat.Some? && exp.None?)
            && (r == Err(ChainInconsistent) <==>
                  !SameProject(lic, project) || (iat.Some? && exp.Some? && !Consistent(lic, project, daily)))
  {
    var pid := ClaimStr(project, "pid");
    if pid.Some? {
      if pid.value != "" && pid.value != lic.projectId {
        return Err(ChainInconsistent);
      }
    }
    if ClaimI64(daily, "iat").None? {
      return Err(MissingClaim("iat"));
    }
    var dailyIat := UnixToInstant(ClaimI64(daily, "iat").value);
    if ClaimI64(daily, "exp").None? {
      return Err(MissingClaim("exp"));
    }
    var dailyExp := UnixToInstant(ClaimI64(daily, "exp").value);
    if lic.issuedAt < dailyIat {
      return Err(ChainInconsistent);
    }
    if lic.issuedAt > dailyExp {
      return Err(ChainInconsistent);
    }
    if lic.gracePeriod > MAX_GRACE_PERIOD {
      return Err(ChainInconsistent);
    }
    return Ok(());
  }

  method VerifyActivationAnyAt(lib: Lib, masters: seq<VerifyingKey>, token: string, chain: CertChain, now: Instant)
    returns (r: Result<License, VerifyError>)
    ensures r == VerifyActivation(lib, masters, Record(token, chain), now)
    ensures r.Ok? ==> exists key, claims :: Says(lib, token, key, claims) && LicenceMeans(claims, r.value)
  {
    var sub :- VerifySubmaster(lib, masters, chain.submaster, now);
    var project :- VerifyLink(lib, sub, "spk", chain.project, now, Strict);
    var daily :- VerifyLink(lib, project, "ppk", chain.daily, now, IgnoreExpiry);
    var claims :- VerifyLink(lib, daily, "dpk", token, 0, InfiniteLeeway);
    assert exists key, said :: Says(lib, token, key, said) && said == claims by {
      AuthenticIffSays(lib, token, KeyFromCert(lib, daily, "dpk").value, claims);
    }
    var lic := ReadLicense(claims);
    var _ :- CheckLinks(lic, project, daily);
    return Ok(lic);
  }
}
