/** Which error a record gets, and at which instants: what is wrong with each link is said without a word
    about the order in which the links are read (src/jwt.rs, src/verify.rs, src/validate.rs). */
module Verdicts {
  import opened Wrappers
  import opened Time
  import opened Windows
  import opened Domain
  import opened Jwt
  import opened Verify
  import opened Validate
  import opened Trust
  import opened Pipeline

  /******* One token *******/

  // `key` did not sign the parts of a token that decodes.
  ghost predicate Unsigned(lib: Lib, token: string, key: VerifyingKey) {
    exists h, p, g, claims ::
      Parts(token, h, p, g) && PartsDecode(lib, h, p, g, claims) && !lib.sigOk(key, h + "." + p, lib.base64(g).value)
  }

  // `key` signed the token, but its claims are another issuer's.
  ghost predicate Foreign(lib: Lib, token: string, key: VerifyingKey) {
    exists h, p, g, claims ::
      Parts(token, h, p, g) && PartsDecode(lib, h, p, g, claims) && lib.sigOk(key, h + "." + p, lib.base64(g).value)
      && !OfTheIssuer(claims)
  }

  // The instant lies before the interval of the claims.
  predicate Early(claims: Claims, now: Instant, mode: TimeMode) {
    var from := Later(NotBefore(ClaimI64(claims, "iat")), NotBefore(ClaimI64(claims, "nbf")));
    !mode.InfiniteLeeway? && from.Some? && now < from.value
  }

  // It lies outside, and not before it.
  predicate Late(claims: Claims, now: Instant, mode: TimeMode) {
    !Early(claims, now, mode) && !CertWindow(claims, mode).Contains(now)
  }

  ghost predicate TokenSound(lib: Lib, token: string, key: VerifyingKey, now: Instant, mode: TimeMode, claims: Claims) {
    Says(lib, token, key, claims) && CertWindow(claims, mode).Contains(now)
  }

  ghost predicate TokenFault(lib: Lib, token: string, key: VerifyingKey, now: Instant, mode: TimeMode, e: VerifyError) {
    match e
    case Malformed => !WellFormedToken(lib, token)
    case InvalidSignature => Unsigned(lib, token, key)
    case WrongIssuer => Foreign(lib, token, key)
    case NotYetValid => exists claims :: Says(lib, token, key, claims) && Early(claims, now, mode)
    case Expired => exists claims :: Says(lib, token, key, claims) && Late(claims, now, mode)
    case _ => false
  }

  lemma {:induction false} TokenSoundIff(lib: Lib, token: string, key: VerifyingKey, now: Instant, mode: TimeMode,
                                         claims: Claims)
    ensures ParseAndVerify(lib, token, key, now, mode) == Ok(claims) <==>
            TokenSound(lib, token, key, now, mode, claims)
  {
    ParsesIffAuthenticInWindow(lib, token, key, now, mode);
    AuthenticIffSays(lib, token, key, claims);
  }

  // The clock has its say last.
  lemma {:induction false} TimesCountLast(lib: Lib, token: string, key: VerifyingKey, now: Instant, mode: TimeMode)
    ensures var said := Authentic(lib, token, key);
            var heard := ParseAndVerify(lib, token, key, now, mode);
            && (said.Err? ==> heard == said)
            && (said.Ok? && Early(said.value, now, mode) ==> heard == Err(NotYetValid))
            && (said.Ok? && Late(said.value, now, mode) ==> heard == Err(Expired))
  {
    if Authentic(lib, token, key).Ok? {
      CertWindowIsExact(Authentic(lib, token, key).value, now, mode);
    }
  }

  lemma {:induction false} FormFaultIff(lib: Lib, token: string, key: VerifyingKey)
    ensures var said := Authentic(lib, token, key);
            && (said == Err(Malformed) <==> !WellFormedToken(lib, token))
            && (said == Err(InvalidSignature) <==> Unsigned(lib, token, key))
            && (said == Err(WrongIssuer) <==> Foreign(lib, token, key))
            && (said.Err? ==> said.error in {Malformed, InvalidSignature, WrongIssuer})
  {
    ErrorsRankFormSignatureIssuer(lib, token, key);
    if WellFormedToken(lib, token) {
      var h, p, g, claims :| Parts(token, h, p, g) && PartsDecode(lib, h, p, g, claims);
      assert !lib.sigOk(key, h + "." + p, lib.base64(g).value) ==> Unsigned(lib, token, key);
    }
  }

  // Which error a token gets under a key, and at which instants.
  lemma {:induction false} TokenFaultIff(lib: Lib, token: string, key: VerifyingKey, now: Instant, mode: TimeMode,
                                         e: VerifyError)
    ensures ParseAndVerify(lib, token, key, now, mode) == Err(e) <==> TokenFault(lib, token, key, now, mode, e)
  {
    FormFaultIff(lib, token, key);
    TimesCountLast(lib, token, key, now, mode);
    ParsesIffAuthenticInWindow(lib, token, key, now, mode);
    forall claims ensures Authentic(lib, token, key) == Ok(claims) <==> Says(lib, token, key, claims) {
      AuthenticIffSays(lib, token, key, claims);
    }
  }

  /******* One link *******/

  // The certificate names no key in `field` that could verify anything.
  predicate KeyFault(lib: Lib, claims: Claims, field: string, e: VerifyError) {
    var text := ClaimStr(claims, field);
    if text.None? then e == MissingClaim(field)
    else
      var bytes := lib.hex(text.value);
      if bytes.None? then e == InvalidClaim(field)
      else (|bytes.value| == 32 ==> lib.point(bytes.value).None?) && e == InvalidClaim("pubkey")
  }

  // It names one that signed `token`, which says `said` and may do so at this instant.
  ghost predicate LinkSound(lib: Lib, claims: Claims, field: string, token: string, now: Instant, mode: TimeMode,
                            said: Claims)
  {
    LinkSays(lib, claims, field, token, said) && CertWindow(said, mode).Contains(now)
  }

  ghost predicate LinkFault(lib: Lib, claims: Claims, field: string, token: string, now: Instant, mode: TimeMode,
                            e: VerifyError)
  {
    var key := KeyFromCert(lib, claims, field);
    if key.Ok? then TokenFault(lib, token, key.value, now, mode, e) else KeyFault(lib, claims, field, e)
  }

  lemma {:induction false} LinkSoundIff(lib: Lib, claims: Claims, field: string, token: string, now: Instant,
                                        mode: TimeMode, said: Claims)
    ensures VerifyLink(lib, claims, field, token, now, mode) == Ok(said) <==>
            LinkSound(lib, claims, field, token, now, mode, said)
  {
    if KeyFromCert(lib, claims, field).Ok? {
      TokenSoundIff(lib, token, KeyFromCert(lib, claims, field).value, now, mode, said);
    }
  }

  lemma {:induction false} KeyFaultIff(lib: Lib, claims: Claims, field: string, e: VerifyError)
    requires field != "pubkey"
    ensures KeyFromCert(lib, claims, field) == Err(e) <==> KeyFault(lib, claims, field, e)
  {
    KeyErrorsNameTheClaim(lib, claims, field);
  }

  // Which error a link gets: a missing or unusable key counts before anything about the token.
  lemma {:induction false} LinkFaultIff(lib: Lib, claims: Claims, field: string, token: string, now: Instant,
                                        mode: TimeMode, e: VerifyError)
    requires field != "pubkey"
    ensures VerifyLink(lib, claims, field, token, now, mode) == Err(e) <==>
            LinkFault(lib, claims, field, token, now, mode, e)
  {
    KeyFaultIff(lib, claims, field, e);
    if KeyFromCert(lib, claims, field).Ok? {
      TokenFaultIff(lib, token, KeyFromCert(lib, claims, field).value, now, mode, e);
    }
  }

  /******* The whole chain *******/

  ghost predicate MastersSound(lib: Lib, masters: seq<VerifyingKey>, token: string, now: Instant, claims: Claims) {
    exists k :: k in masters && TokenSound(lib, token, k, now, Strict, claims)
  }

  // No listed master vouches for the certificate, and this is what is wrong under the last one.
  ghost predicate MastersFault(lib: Lib, masters: seq<VerifyingKey>, token: string, now: Instant, e: VerifyError) {
    && (forall claims :: !MastersSound(lib, masters, token, now, claims))
    && (if masters == [] then e == InvalidSignature
        else TokenFault(lib, token, masters[|masters| - 1], now, Strict, e))
  }

  // The claims of the certificates and the licence disagree.
  predicate CrossFault(lic: License, project: Claims, daily: Claims, e: VerifyError) {
    var iat, exp := ClaimI64(daily, "iat"), ClaimI64(daily, "exp");
    match e
    case MissingClaim(claim) =>
      SameProject(lic, project) && ((claim == "iat" && iat.None?) || (claim == "exp" && iat.Some? && exp.None?))
    case ChainInconsistent =>
      !SameProject(lic, project) || (iat.Some? && exp.Some? && !Consistent(lic, project, daily))
    case _ => false
  }

  ghost predicate TokenLinkFault(lib: Lib, project: Claims, daily: Claims, token: string, e: VerifyError) {
    || LinkFault(lib, daily, "dpk", token, 0, InfiniteLeeway, e)
    || exists claims :: LinkSays(lib, daily, "dpk", token, claims) && CrossFault(LicenseOf(claims), project, daily, e)
  }

  ghost predicate DailyFault(lib: Lib, project: Claims, rec: Record, now: Instant, e: VerifyError) {
    || LinkFault(lib, project, "ppk", rec.chain.daily, now, IgnoreExpiry, e)
    || exists daily ::
         LinkSound(lib, project, "ppk", rec.chain.daily, now, IgnoreExpiry, daily)
         && TokenLinkFault(lib, project, daily, rec.token, e)
  }

  ghost predicate ProjectFault(lib: Lib, sub: Claims, rec: Record, now: Instant, e: VerifyError) {
    || LinkFault(lib, sub, "spk", rec.chain.project, now, Strict, e)
    || exists project ::
         LinkSound(lib, sub, "spk", rec.chain.project, now, Strict, project) && DailyFault(lib, project, rec, now, e)
  }

  // `e` is what is wrong with the first link, from the top, at which the chain breaks.
  ghost predicate RecordFault(lib: Lib, masters: seq<VerifyingKey>, rec: Record, now: Instant, e: VerifyError) {
    || MastersFault(lib, masters, rec.chain.submaster, now, e)
    || exists sub :: MastersSound(lib, masters, rec.chain.submaster, now, sub) && ProjectFault(lib, sub, rec, now, e)
  }

  lemma {:induction false} MastersSoundIff(lib: Lib, masters: seq<VerifyingKey>, token: string, now: Instant,
                                           claims: Claims)
    ensures TryMasters(lib, masters, token, now, Strict) == Ok(claims) <==>
            MastersSound(lib, masters, token, now, claims)
  {
    MasterLoop(lib, masters, token, now, Strict);
    forall k ensures ParseAndVerify(lib, token, k, now, Strict) == Ok(claims) <==>
                     TokenSound(lib, token, k, now, Strict, claims)
    {
      TokenSoundIff(lib, token, k, now, Strict, claims);
    }
  }

  lemma {:induction false} MastersFaultIff(lib: Lib, masters: seq<VerifyingKey>, token: string, now: Instant,
                                           e: VerifyError)
    ensures TryMasters(lib, masters, token, now, Strict) == Err(e) <==> MastersFault(lib, masters, token, now, e)
  {
    MasterLoop(lib, masters, token, now, Strict);
    forall claims ensures TryMasters(lib, masters, token, now, Strict) == Ok(claims) <==>
                          MastersSound(lib, masters, token, now, claims)
    {
      MastersSoundIff(lib, masters, token, now, claims);
    }
    if masters != [] {
      TokenFaultIff(lib, token, masters[|masters| - 1], now, Strict, e);
    }
  }

  lemma {:induction false} CrossFaultIff(lic: License, project: Claims, daily: Claims, e: VerifyError)
    ensures CrossCheck(lic, project, daily) == Err(e) <==> CrossFault(lic, project, daily, e)
  {
  }

  lemma {:induction false} TokenLinkFaultIff(lib: Lib, sub: Claims, project: Claims, daily: Claims, token: string,
                                             e: VerifyError)
    ensures VerifyToken(lib, sub, project, daily, token) == Err(e) <==> TokenLinkFault(lib, project, daily, token, e)
  {
    LinkFaultIff(lib, daily, "dpk", token, 0, InfiniteLeeway, e);
    forall claims
      ensures VerifyLink(lib, daily, "dpk", token, 0, InfiniteLeeway) == Ok(claims) <==>
              LinkSays(lib, daily, "dpk", token, claims)
      ensures CrossCheck(LicenseOf(claims), project, daily) == Err(e) <==>
              CrossFault(LicenseOf(claims), project, daily, e)
    {
      HeardIff(lib, daily, "dpk", token, claims);
      CrossFaultIff(LicenseOf(claims), project, daily, e);
    }
  }

  lemma {:induction false} DailyFaultIff(lib: Lib, sub: Claims, project: Claims, rec: Record, now: Instant,
                                         e: VerifyError)
    requires VerifyLink(lib, sub, "spk", rec.chain.project, now, Strict) == Ok(project)
    ensures VerifyLinks(lib, sub, rec, now, Strict, IgnoreExpiry) == Err(e) <==> DailyFault(lib, project, rec, now, e)
  {
    LinkFaultIff(lib, project, "ppk", rec.chain.daily, now, IgnoreExpiry, e);
    forall daily
      ensures VerifyLink(lib, project, "ppk", rec.chain.daily, now, IgnoreExpiry) == Ok(daily) <==>
              LinkSound(lib, project, "ppk", rec.chain.daily, now, IgnoreExpiry, daily)
      ensures VerifyToken(lib, sub, project, daily, rec.token) == Err(e) <==>
              TokenLinkFault(lib, project, daily, rec.token, e)
    {
      LinkSoundIff(lib, project, "ppk", rec.chain.daily, now, IgnoreExpiry, daily);
      TokenLinkFaultIff(lib, sub, project, daily, rec.token, e);
    }
  }

  lemma {:induction false} ProjectFaultIff(lib: Lib, sub: Claims, rec: Record, now: Instant, e: VerifyError)
    ensures VerifyLinks(lib, sub, rec, now, Strict, IgnoreExpiry) == Err(e) <==> ProjectFault(lib, sub, rec, now, e)
  {
    var link := VerifyLink(lib, sub, "spk", rec.chain.project, now, Strict);
    LinkFaultIff(lib, sub, "spk", rec.chain.project, now, Strict, e);
    forall project ensures link == Ok(project) <==> LinkSound(lib, sub, "spk", rec.chain.project, now, Strict, project)
    {
      LinkSoundIff(lib, sub, "spk", rec.chain.project, now, Strict, project);
    }
    if link.Ok? {
      DailyFaultIff(lib, sub, link.value, rec, now, e);
    }
  }

  // Which verification error a record gets, and at which instants: what is wrong with the first link at
  // which its chain breaks. Neither the links below nor the licence have a say.
  lemma {:induction false} VerifyFailsWithItsCause(lib: Lib, masters: seq<VerifyingKey>, rec: Record,
                                                   machineId: string, now: Instant, renewalFailed: bool,
                                                   e: VerifyError)
    ensures CheckLicense(lib, masters, rec, machineId, now, renewalFailed) == Err(VerifyFailed(e)) <==>
            RecordFault(lib, masters, rec, now, e)
  {
    var sub := TryMasters(lib, masters, rec.chain.submaster, now, Strict);
    MastersFaultIff(lib, masters, rec.chain.submaster, now, e);
    forall claims ensures sub == Ok(claims) <==> MastersSound(lib, masters, rec.chain.submaster, now, claims) {
      MastersSoundIff(lib, masters, rec.chain.submaster, now, claims);
    }
    if sub.Ok? {
      ProjectFaultIff(lib, sub.value, rec, now, e);
    }
  }

  /******* The whole pipeline *******/

  predicate Complete(lic: License) {
    lic.issuedAt != 0 && lic.expiresAt != 0 && lic.gracePeriod != 0
  }

  // Why a verified licence is rejected; its age never is the cause.
  predicate LicenceFault(lic: License, machineId: string, now: Instant, cause: ValidateError) {
    match cause
    case InvalidFields => !Complete(lic) || (lic.machineId == machineId && lic.expiresAt < lic.issuedAt)
    case MachineIdMismatch => Complete(lic) && lic.machineId != machineId
    case HardExpired => WellFormed(lic, machineId) && lic.expiresAt < now
    case GraceExpired => WellFormed(lic, machineId) && Deadline(lic) < now <= lic.expiresAt
    case LicenseTooOld => false
  }

  // `chain` is trusted, and the instant lies in the interval of its certificates.
  ghost predicate Attested(lib: Lib, masters: seq<VerifyingKey>, rec: Record, now: Instant, chain: Chain) {
    Trusted(lib, masters, rec, chain) && ChainWindow(chain).Contains(now)
  }

  lemma {:induction false} AttestedIff(lib: Lib, masters: seq<VerifyingKey>, rec: Record, now: Instant, chain: Chain)
    ensures Attested(lib, masters, rec, now, chain) <==>
            Timeless(lib, masters, rec) == Ok(chain) && VerifyActivation(lib, masters, rec, now) == Ok(chain.lic)
    ensures VerifyActivation(lib, masters, rec, now).Ok? ==> Timeless(lib, masters, rec).Ok?
  {
    VerifiesIffTrusted(lib, masters, rec, chain);
    VerifiesExactlyInWindow(lib, masters, rec, now);
  }

  lemma {:induction false} LicenceFaultIff(lib: Lib, masters: seq<VerifyingKey>, rec: Record, machineId: string,
                                           now: Instant, cause: ValidateError)
    requires Timeless(lib, masters, rec).Ok?
    ensures var lic := Timeless(lib, masters, rec).value.lic;
            && (ValidateAt(lic, machineId, now) == Fail(cause) <==> LicenceFault(lic, machineId, now, cause))
            && (ValidateAt(lic, machineId, now).Pass? <==>
                WellFormed(lic, machineId) && IsValid(lic, now) && now <= lic.expiresAt)
  {
    var lic := Timeless(lib, masters, rec).value.lic;
    VerifiedGraceIsCapped(lib, masters, rec);
    ErrorsNameTheirCause(lic, machineId, now);
    PassingIsBeingValidAndMore(lic, machineId, now);
    TooOldIsPossibleIff(lic, machineId);
  }

  // A licence is handed out exactly when a chain vouches for it and it is well formed, valid by `is_valid`
  // and not past its end.
  lemma {:induction false} AcceptedIffAttestedAndValid(lib: Lib, masters: seq<VerifyingKey>, rec: Record,
                                                      machineId: string, now: Instant, renewalFailed: bool)
    ensures CheckLicense(lib, masters, rec, machineId, now, renewalFailed).Ok? <==> exists chain ::
              Attested(lib, masters, rec, now, chain) && WellFormed(chain.lic, machineId)
              && IsValid(chain.lic, now) && now <= chain.lic.expiresAt
  {
    forall chain ensures Attested(lib, masters, rec, now, chain) <==>
              Timeless(lib, masters, rec) == Ok(chain) && VerifyActivation(lib, masters, rec, now) == Ok(chain.lic)
    {
      AttestedIff(lib, masters, rec, now, chain);
    }
    if VerifyActivation(lib, masters, rec, now).Ok? {
      VerifiesExactlyInWindow(lib, masters, rec, now);
      assert Attested(lib, masters, rec, now, Timeless(lib, masters, rec).value);
      LicenceFaultIff(lib, masters, rec, machineId, now, HardExpired);
    }
  }

  // When no link is broken, the error is what is wrong with the licence.
  lemma {:induction false} ValidateFailsWithItsCause(lib: Lib, masters: seq<VerifyingKey>, rec: Record,
                                                     machineId: string, now: Instant, renewalFailed: bool,
                                                     cause: ValidateError)
    ensures CheckLicense(lib, masters, rec, machineId, now, renewalFailed) == Err(ValidateFailed(cause)) <==>
            exists chain :: Attested(lib, masters, rec, now, chain) && LicenceFault(chain.lic, machineId, now, cause)
  {
    forall chain ensures Attested(lib, masters, rec, now, chain) <==>
              Timeless(lib, masters, rec) == Ok(chain) && VerifyActivation(lib, masters, rec, now) == Ok(chain.lic)
    {
      AttestedIff(lib, masters, rec, now, chain);
    }
    if VerifyActivation(lib, masters, rec, now).Ok? {
      VerifiesExactlyInWindow(lib, masters, rec, now);
      assert Attested(lib, masters, rec, now, Timeless(lib, masters, rec).value);
      LicenceFaultIff(lib, masters, rec, machineId, now, cause);
    }
  }
}
