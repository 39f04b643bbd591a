/** The whole offline pipeline (src/lib.rs): verify the chain, validate the licence, set the grace bit;
    and the set of instants at which it accepts. */
module Pipeline {
  import opened Wrappers
  import opened Time
  import opened Windows
  import opened Domain
  import opened Jwt
  import opened Verify
  import opened Validate
  import opened Trust

  datatype PublicLicense = PublicLicense(
    key: string,
    activationId: string,
    projectId: string,
    issuedAt: Instant,
    expiresAt: Instant,
    gracePeriod: Duration,
    inGracePeriod: bool,
    licenseType: LicenseType,
    metadata: map<string, string>,
    entitlements: Option<Claims>)

  function ToPublicLicense(lic: License, inGrace: bool): PublicLicense {
    PublicLicense(
      key := lic.key,
      activationId := lic.activationId,
      projectId := lic.projectId,
      issuedAt := lic.issuedAt,
      expiresAt := lic.expiresAt,
      gracePeriod := lic.gracePeriod,
      inGracePeriod := inGrace,
      licenseType := lic.licenseType,
      metadata := lic.metadata,
      entitlements := lic.entitlements)
  }

  datatype CheckError = VerifyFailed(reason: VerifyError) | ValidateFailed(cause: ValidateError)

  function CheckLicense(lib: Lib, masters: seq<VerifyingKey>, rec: Record, machineId: string, now: Instant,
                        renewalFailed: bool)
    : Result<PublicLicense, CheckError>
  {
    var verified := VerifyActivation(lib, masters, rec, now);
    if verified.Err? then Err(VerifyFailed(verified.error))
    else
      var verdict := ValidateAt(verified.value, machineId, now);
      if verdict.Fail? then Err(ValidateFailed(verdict.error))
      else Ok(ToPublicLicense(verified.value, InGracePeriod(verified.value, now, renewalFailed)))
  }

  predicate Accepts(lib: Lib, masters: seq<VerifyingKey>, rec: Record, machineId: string, now: Instant) {
    CheckLicense(lib, masters, rec, machineId, now, false).Ok?
  }

  /******* When a chain verifies *******/

  // The time claims of the certificates: the daily one's `exp` is not among them.
  function ChainWindow(chain: Chain): Window {
    Meet(CertWindow(chain.submaster, Strict),
         Meet(CertWindow(chain.project, Strict), CertWindow(chain.daily, IgnoreExpiry)))
  }

  lemma {:induction false} MastersInWindow(lib: Lib, masters: seq<VerifyingKey>, token: string, now: Instant)
    ensures var said := TryMasters(lib, masters, token, 0, InfiniteLeeway);
            var heard := TryMasters(lib, masters, token, now, Strict);
            (heard.Ok? <==> said.Ok? && CertWindow(said.value, Strict).Contains(now)) && (heard.Ok? ==> heard == said)
  {
    MasterLoop(lib, masters, token, 0, InfiniteLeeway);
    MasterLoop(lib, masters, token, now, Strict);
    forall k | k in masters
      ensures ParseAndVerify(lib, token, k, now, Strict).Ok? <==>
              Authentic(lib, token, k).Ok? && CertWindow(Authentic(lib, token, k).value, Strict).Contains(now)
      ensures ParseAndVerify(lib, token, k, now, Strict).Ok? ==>
              ParseAndVerify(lib, token, k, now, Strict) == Authentic(lib, token, k)
    {
      ParsesIffAuthenticInWindow(lib, token, k, now, Strict);
    }
  }

  lemma {:induction false} LinkInWindow(lib: Lib, claims: Claims, field: string, token: string, now: Instant,
                                        mode: TimeMode)
    ensures var said := VerifyLink(lib, claims, field, token, 0, InfiniteLeeway);
            var heard := VerifyLink(lib, claims, field, token, now, mode);
            (heard.Ok? <==> said.Ok? && CertWindow(said.value, mode).Contains(now)) && (heard.Ok? ==> heard == said)
  {
    if KeyFromCert(lib, claims, field).Ok? {
      ParsesIffAuthenticInWindow(lib, token, KeyFromCert(lib, claims, field).value, now, mode);
    }
  }

  lemma {:induction false} LinksInWindow(lib: Lib, sub: Claims, rec: Record, now: Instant)
    ensures var said := TimelessLinks(lib, sub, rec);
            var heard := VerifyLinks(lib, sub, rec, now, Strict, IgnoreExpiry);
            (heard.Ok? <==>
             said.Ok? && CertWindow(said.value.project, Strict).Contains(now)
             && CertWindow(said.value.daily, IgnoreExpiry).Contains(now))
            && (heard.Ok? ==> heard == said)
  {
    LinkInWindow(lib, sub, "spk", rec.chain.project, now, Strict);
    var project := VerifyLink(lib, sub, "spk", rec.chain.project, 0, InfiniteLeeway);
    if project.Ok? {
      LinkInWindow(lib, project.value, "ppk", rec.chain.daily, now, IgnoreExpiry);
    }
  }

  lemma {:induction false} VerifiesExactlyInWindow(lib: Lib, masters: seq<VerifyingKey>, rec: Record, now: Instant)
    ensures VerifyActivation(lib, masters, rec, now).Ok? <==>
            Timeless(lib, masters, rec).Ok? && ChainWindow(Timeless(lib, masters, rec).value).Contains(now)
    ensures VerifyActivation(lib, masters, rec, now).Ok? ==>
            VerifyActivation(lib, masters, rec, now).value == Timeless(lib, masters, rec).value.lic
  {
    MastersInWindow(lib, masters, rec.chain.submaster, now);
    var said := TryMasters(lib, masters, rec.chain.submaster, 0, InfiniteLeeway);
    if said.Ok? {
      LinksInWindow(lib, said.value, rec, now);
      if TimelessLinks(lib, said.value, rec).Ok? {
        var _ := VerifiedLinksAreHeard(lib, said.value, rec);
      }
    }
  }

  // What the caller is shown of a licence: everything but its machine and its alias, and whether it is in
  // grace.
  predicate Shows(shown: PublicLicense, lic: License, now: Instant, renewalFailed: bool) {
    && shown.key == lic.key && shown.activationId == lic.activationId && shown.projectId == lic.projectId
    && shown.issuedAt == lic.issuedAt && shown.expiresAt == lic.expiresAt && shown.gracePeriod == lic.gracePeriod
    && (shown.inGracePeriod <==>
          renewalFailed && lic.issuedAt + ONE_HOUR < now < lic.issuedAt + lic.gracePeriod)
    && shown.licenseType == lic.licenseType && shown.metadata == lic.metadata && shown.entitlements == lic.entitlements
  }

  /******* When the pipeline accepts *******/

  function AcceptingWindow(lib: Lib, masters: seq<VerifyingKey>, rec: Record, machineId: string): Window {
    var chain := Timeless(lib, masters, rec);
    if chain.Err? || !WellFormed(chain.value.lic, machineId) then Never
    else
      var lic := chain.value.lic;
      Meet(ChainWindow(chain.value), Span(None, Earlier(Some(lic.expiresAt), Some(Deadline(lic)))))
  }

  // Verification caps the grace period at 90 days, so the 365-day ceiling binds no verified licence.
  lemma {:induction false} VerifiedGraceIsCapped(lib: Lib, masters: seq<VerifyingKey>, rec: Record)
    requires Timeless(lib, masters, rec).Ok?
    ensures var chain := Timeless(lib, masters, rec).value; Consistent(chain.lic, chain.project, chain.daily)
    ensures Timeless(lib, masters, rec).value.lic.gracePeriod <= 90 * DAY
  {
    VerifiesIffTrusted(lib, masters, rec, Timeless(lib, masters, rec).value);
  }

  // For a fixed record, machine and list of masters, the pipeline accepts at exactly the instants
  // of one interval, with one licence at all of them.
  lemma {:induction false} AcceptsExactlyInTheWindow(lib: Lib, masters: seq<VerifyingKey>, rec: Record,
                                                     machineId: string, now: Instant, renewalFailed: bool)
    ensures CheckLicense(lib, masters, rec, machineId, now, renewalFailed).Ok? <==>
            AcceptingWindow(lib, masters, rec, machineId).Contains(now)
    ensures CheckLicense(lib, masters, rec, machineId, now, renewalFailed).Ok? ==>
            var lic := Timeless(lib, masters, rec).value.lic;
            CheckLicense(lib, masters, rec, machineId, now, renewalFailed).value
            == ToPublicLicense(lic, InGracePeriod(lic, now, renewalFailed))
    ensures CheckLicense(lib, masters, rec, machineId, now, renewalFailed).Ok? ==>
            Shows(CheckLicense(lib, masters, rec, machineId, now, renewalFailed).value,
                  Timeless(lib, masters, rec).value.lic, now, renewalFailed)
  {
    VerifiesExactlyInWindow(lib, masters, rec, now);
    if Timeless(lib, masters, rec).Ok? {
      VerifiedGraceIsCapped(lib, masters, rec);
      ValidatesExactlyInWindow(Timeless(lib, masters, rec).value.lic, machineId, now);
    }
  }

  // On an unchanged record, once accepted and then rejected, never accepted at a later reading.
  lemma {:induction false} NoReturnToOk(lib: Lib, masters: seq<VerifyingKey>, rec: Record, machineId: string,
                                        a: Instant, b: Instant, c: Instant)
    requires a <= b <= c
    requires Accepts(lib, masters, rec, machineId, a) && !Accepts(lib, masters, rec, machineId, b)
    ensures !Accepts(lib, masters, rec, machineId, c)
  {
    AcceptsExactlyInTheWindow(lib, masters, rec, machineId, a, false);
    AcceptsExactlyInTheWindow(lib, masters, rec, machineId, b, false);
    AcceptsExactlyInTheWindow(lib, masters, rec, machineId, c, false);
  }

  // Every accepting instant lies between the daily certificate's `iat` and its `exp` + 90 days. A
  // clock before 1970 reads as 0 for the lower end, so there the `iat` need only not be positive.
  lemma {:induction false} AcceptedWithinTheDailyCert(lib: Lib, masters: seq<VerifyingKey>, rec: Record,
                                                      machineId: string, now: Instant)
    requires Accepts(lib, masters, rec, machineId, now)
    ensures Timeless(lib, masters, rec).Ok?
    ensures var daily := Timeless(lib, masters, rec).value.daily;
            var iat, exp := ClaimI64(daily, "iat"), ClaimI64(daily, "exp");
            && iat.Some? && exp.Some?
            && (if now >= 0 then UnixToInstant(iat.value) <= now else iat.value <= 0)
            && now <= UnixToInstant(exp.value) + 90 * DAY
  {
    AcceptsExactlyInTheWindow(lib, masters, rec, machineId, now, false);
    VerifiedGraceIsCapped(lib, masters, rec);
  }

  lemma {:induction false} LicenseTooOldNeverArises(lib: Lib, masters: seq<VerifyingKey>, rec: Record,
                                                    machineId: string, now: Instant, renewalFailed: bool)
    ensures CheckLicense(lib, masters, rec, machineId, now, renewalFailed) != Err(ValidateFailed(LicenseTooOld))
  {
    VerifiesExactlyInWindow(lib, masters, rec, now);
    if VerifyActivation(lib, masters, rec, now).Ok? {
      VerifiedGraceIsCapped(lib, masters, rec);
      TooOldIsPossibleIff(VerifyActivation(lib, masters, rec, now).value, machineId);
    }
  }
}
