/** What an accepted chain proves, and which parts of the input decide it. */
module Trust {
  import opened Wrappers
  import opened Time
  import opened Domain
  import opened Jwt
  import opened Verify

  /******* The master loop *******/

  // The loop succeeds exactly when some listed master verifies the certificate, with the claims that
  // the certificate itself carries; otherwise it reports what the last master reports.
  lemma {:induction false} MasterLoop(lib: Lib, masters: seq<VerifyingKey>, token: string, now: Instant, mode: TimeMode)
    ensures TryMasters(lib, masters, token, now, mode).Ok? <==>
            exists k :: k in masters && ParseAndVerify(lib, token, k, now, mode).Ok?
    ensures forall k :: k in masters && ParseAndVerify(lib, token, k, now, mode).Ok? ==>
            TryMasters(lib, masters, token, now, mode) == ParseAndVerify(lib, token, k, now, mode)
    ensures TryMasters(lib, masters, token, now, mode).Err? ==>
            TryMasters(lib, masters, token, now, mode) ==
            if masters == [] then Err(InvalidSignature)
            else ParseAndVerify(lib, token, masters[|masters| - 1], now, mode)
  {
    if masters == [] {
    } else {
      var first := ParseAndVerify(lib, token, masters[0], now, mode);
      if |masters| > 1 {
        MasterLoop(lib, masters[1..], token, now, mode);
      }
      assert forall k :: k in masters <==> k == masters[0] || k in masters[1..];
      forall k | k in masters && ParseAndVerify(lib, token, k, now, mode).Ok?
        ensures TryMasters(lib, masters, token, now, mode) == ParseAndVerify(lib, token, k, now, mode)
      {
        if first.Ok? {
          ParsesAlike(lib, token, k, masters[0], now, mode);
        }
      }
    }
  }

  lemma {:induction false} ParsesAlike(lib: Lib, token: string, k: VerifyingKey, k': VerifyingKey, now: Instant,
                                       mode: TimeMode)
    requires ParseAndVerify(lib, token, k, now, mode).Ok? && ParseAndVerify(lib, token, k', now, mode).Ok?
    ensures ParseAndVerify(lib, token, k, now, mode) == ParseAndVerify(lib, token, k', now, mode)
  {
    ParsesIffAuthenticInWindow(lib, token, k, now, mode);
    ParsesIffAuthenticInWindow(lib, token, k', now, mode);
    KeysAgreeOnClaims(lib, token, k, k');
  }

  // A record verifies exactly when one listed master alone would verify it, and then gives the
  // licence that master gives: which key matched, and the order of the list, decide nothing.
  lemma {:induction false} SomeMasterDecides(lib: Lib, masters: seq<VerifyingKey>, rec: Record, now: Instant)
    ensures VerifyActivation(lib, masters, rec, now).Ok? <==>
            exists k :: k in masters && VerifyActivation(lib, [k], rec, now).Ok?
    ensures forall k :: k in masters && VerifyActivation(lib, [k], rec, now).Ok? ==>
            VerifyActivation(lib, masters, rec, now) == VerifyActivation(lib, [k], rec, now)
  {
    var token := rec.chain.submaster;
    MasterLoop(lib, masters, token, now, Strict);
    forall k | k in masters && VerifyActivation(lib, [k], rec, now).Ok?
      ensures VerifyActivation(lib, masters, rec, now) == VerifyActivation(lib, [k], rec, now)
    {
      MasterLoop(lib, [k], token, now, Strict);
    }
    if VerifyActivation(lib, masters, rec, now).Ok? {
      var k :| k in masters && ParseAndVerify(lib, token, k, now, Strict).Ok?;
      MasterLoop(lib, [k], token, now, Strict);
      assert VerifyActivation(lib, [k], rec, now).Ok?;
    }
  }

  // Trusting more keys, in any order, keeps every acceptance and its licence.
  lemma {:induction false} MoreMastersKeepAcceptance(lib: Lib, masters: seq<VerifyingKey>, more: seq<VerifyingKey>,
                                                     rec: Record, now: Instant)
    requires VerifyActivation(lib, masters, rec, now).Ok?
    requires forall k :: k in masters ==> k in more
    ensures VerifyActivation(lib, more, rec, now) == VerifyActivation(lib, masters, rec, now)
  {
    SomeMasterDecides(lib, masters, rec, now);
    SomeMasterDecides(lib, more, rec, now);
    var k :| k in masters && VerifyActivation(lib, [k], rec, now).Ok?;
    assert k in more;
  }

  /******* The keys the certificates name *******/

  // Which error a certificate without a usable key gets: one that names none is missing the claim, one
  // whose text is not hex has that claim wrong, and bytes that are no key are a wrong public key.
  lemma {:induction false} KeyErrorsNameTheClaim(lib: Lib, claims: Claims, field: string)
    requires field != "pubkey"
    ensures var key, text := KeyFromCert(lib, claims, field), ClaimStr(claims, field);
            && (key == Err(MissingClaim(field)) <==> text.None?)
            && (key == Err(InvalidClaim(field)) <==> text.Some? && lib.hex(text.value).None?)
            && (key == Err(InvalidClaim("pubkey")) <==>
                  text.Some? && lib.hex(text.value).Some?
                  && (|lib.hex(text.value).value| == 32 ==> lib.point(lib.hex(text.value).value).None?))
  {
  }

  // The claim is the hex form of 32 bytes, and these are the key.
  predicate NamesKey(lib: Lib, claims: Claims, field: string, key: VerifyingKey) {
    && field in claims && claims[field].Str?
    && var bytes := lib.hex(claims[field].s);
       bytes.Some? && |bytes.value| == 32 && lib.point(bytes.value) == Some(key)
  }

  lemma KeyIsTheNamedOne(lib: Lib, claims: Claims, field: string, key: VerifyingKey)
    ensures KeyFromCert(lib, claims, field) == Ok(key) <==> NamesKey(lib, claims, field, key)
  {
  }

  /******* The chain of signatures *******/

  // The key that `claims` names in `field` signed `token`, which says `said`.
  ghost predicate LinkSays(lib: Lib, claims: Claims, field: string, token: string, said: Claims) {
    exists key :: NamesKey(lib, claims, field, key) && Says(lib, token, key, said)
  }

  // The links below the submaster certificate, each signed by the key its parent names.
  ghost predicate LinksHold(lib: Lib, rec: Record, chain: Chain) {
    && LinkSays(lib, chain.submaster, "spk", rec.chain.project, chain.project)
    && LinkSays(lib, chain.project, "ppk", rec.chain.daily, chain.daily)
    && (exists claims :: LinkSays(lib, chain.daily, "dpk", rec.token, claims) && LicenceMeans(claims, chain.lic))
    && Consistent(chain.lic, chain.project, chain.daily)
  }

  ghost predicate Trusted(lib: Lib, masters: seq<VerifyingKey>, rec: Record, chain: Chain) {
    && (exists k :: k in masters && Says(lib, rec.chain.submaster, k, chain.submaster))
    && LinksHold(lib, rec, chain)
  }

  // The chain when no clock is consulted.
  function Timeless(lib: Lib, masters: seq<VerifyingKey>, rec: Record): Result<Chain, VerifyError> {
    VerifyChain(lib, masters, rec, 0, InfiniteLeeway, InfiniteLeeway)
  }

  function TimelessLinks(lib: Lib, sub: Claims, rec: Record): Result<Chain, VerifyError> {
    VerifyLinks(lib, sub, rec, 0, InfiniteLeeway, InfiniteLeeway)
  }

  // The same link as verification establishes it.
  predicate Heard(lib: Lib, claims: Claims, field: string, token: string, said: Claims) {
    VerifyLink(lib, claims, field, token, 0, InfiniteLeeway) == Ok(said)
  }

  predicate LinksHeard(lib: Lib, rec: Record, chain: Chain, claims: Claims) {
    && Heard(lib, chain.submaster, "spk", rec.chain.project, chain.project)
    && Heard(lib, chain.project, "ppk", rec.chain.daily, chain.daily)
    && Heard(lib, chain.daily, "dpk", rec.token, claims)
    && chain.lic == LicenseOf(claims)
    && Consistent(chain.lic, chain.project, chain.daily)
  }

  lemma {:induction false} HeardIff(lib: Lib, claims: Claims, field: string, token: string, said: Claims)
    ensures Heard(lib, claims, field, token, said) <==> LinkSays(lib, claims, field, token, said)
  {
    forall key ensures KeyFromCert(lib, claims, field) == Ok(key) <==> NamesKey(lib, claims, field, key) {
      KeyIsTheNamedOne(lib, claims, field, key);
    }
    if KeyFromCert(lib, claims, field).Ok? {
      var key := KeyFromCert(lib, claims, field).value;
      AuthenticIffSays(lib, token, key, said);
      assert Says(lib, token, key, said) ==> LinkSays(lib, claims, field, token, said);
    }
  }

  lemma {:induction false} LinksHeardIff(lib: Lib, rec: Record, chain: Chain)
    ensures LinksHold(lib, rec, chain) <==> exists claims :: LinksHeard(lib, rec, chain, claims)
  {
    HeardIff(lib, chain.submaster, "spk", rec.chain.project, chain.project);
    HeardIff(lib, chain.project, "ppk", rec.chain.daily, chain.daily);
    if LinksHold(lib, rec, chain) {
      var claims :| LinkSays(lib, chain.daily, "dpk", rec.token, claims) && LicenceMeans(claims, chain.lic);
      HeardIff(lib, chain.daily, "dpk", rec.token, claims);
      LicenceIsWhatClaimsMean(claims, chain.lic);
      assert LinksHeard(lib, rec, chain, claims);
    }
    if claims :| LinksHeard(lib, rec, chain, claims) {
      HeardIff(lib, chain.daily, "dpk", rec.token, claims);
      LicenceIsWhatClaimsMean(claims, chain.lic);
    }
  }

  lemma {:induction false} VerifiedLinksAreHeard(lib: Lib, sub: Claims, rec: Record) returns (claims: Claims)
    requires TimelessLinks(lib, sub, rec).Ok?
    ensures TimelessLinks(lib, sub, rec).value.submaster == sub
    ensures LinksHeard(lib, rec, TimelessLinks(lib, sub, rec).value, claims)
  {
    claims := VerifyLink(lib, TimelessLinks(lib, sub, rec).value.daily, "dpk", rec.token, 0, InfiniteLeeway).value;
  }

  lemma {:induction false} HeardLinksVerify(lib: Lib, rec: Record, chain: Chain, claims: Claims)
    requires LinksHeard(lib, rec, chain, claims)
    ensures TimelessLinks(lib, chain.submaster, rec) == Ok(chain)
  {
  }

  lemma {:induction false} LinksVerifyIffTheyHold(lib: Lib, rec: Record, chain: Chain)
    ensures TimelessLinks(lib, chain.submaster, rec) == Ok(chain) <==> LinksHold(lib, rec, chain)
  {
    LinksHeardIff(lib, rec, chain);
    if TimelessLinks(lib, chain.submaster, rec) == Ok(chain) {
      var _ := VerifiedLinksAreHeard(lib, chain.submaster, rec);
    }
    if claims :| LinksHeard(lib, rec, chain, claims) {
      HeardLinksVerify(lib, rec, chain, claims);
    }
  }

  lemma {:induction false} SubmasterIffSays(lib: Lib, masters: seq<VerifyingKey>, token: string, claims: Claims)
    ensures TryMasters(lib, masters, token, 0, InfiniteLeeway) == Ok(claims) <==>
            exists k :: k in masters && Says(lib, token, k, claims)
  {
    MasterLoop(lib, masters, token, 0, InfiniteLeeway);
    forall k ensures Authentic(lib, token, k) == Ok(claims) <==> Says(lib, token, k, claims) {
      AuthenticIffSays(lib, token, k, claims);
    }
  }

  // Verification succeeds exactly when the chain is signed from a trusted master down to the token,
  // and its claims agree.
  lemma {:induction false} VerifiesIffTrusted(lib: Lib, masters: seq<VerifyingKey>, rec: Record, chain: Chain)
    ensures Timeless(lib, masters, rec) == Ok(chain) <==> Trusted(lib, masters, rec, chain)
  {
    SubmasterIffSays(lib, masters, rec.chain.submaster, chain.submaster);
    LinksVerifyIffTheyHold(lib, rec, chain);
    if Timeless(lib, masters, rec) == Ok(chain) {
      var sub := TryMasters(lib, masters, rec.chain.submaster, 0, InfiniteLeeway).value;
      var _ := VerifiedLinksAreHeard(lib, sub, rec);
    }
  }
}
