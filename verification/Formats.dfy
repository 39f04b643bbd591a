/** The two activation token formats of src/verify.rs say the same things. */
module Formats {
  import opened Wrappers
  import opened Time
  import opened Domain
  import opened Jwt
  import opened Verify
  import opened Pipeline

  // A token without a readable `grc`, whose `exp - iat` does not overflow.
  predicate WithoutGrace(claims: Claims) {
    ClaimI64(claims, "grc").None? && I64_MIN <= GraceSecs(claims) <= I64_MAX
  }

  // The same licence as a `grc` token: `exp` is the licence's end, `grc` the time from `iat` to the
  // old `exp`, and `lex` is gone.
  function WithGrace(claims: Claims): Claims {
    (claims - {"lex"})["exp" := Num(EndSecs(claims) as real)]["grc" := Num(GraceSecs(claims) as real)]
  }

  lemma WholeNumbersRead(i: int)
    requires I64_MIN <= i <= I64_MAX
    ensures ToI64(i as real) == i
  {
  }

  predicate Rewritten(name: string) {
    name == "exp" || name == "grc" || name == "lex"
  }

  lemma {:induction false} OtherClaimsStay(claims: Claims, name: string)
    requires !Rewritten(name)
    ensures name in WithGrace(claims) <==> name in claims
    ensures name in claims ==> WithGrace(claims)[name] == claims[name]
  {
  }

  lemma {:induction false} SameTexts(claims: Claims)
    ensures forall name | name in ["sub", "alias", "aid", "pid", "mid", "ltype"] ::
              ClaimStr(WithGrace(claims), name) == ClaimStr(claims, name)
  {
    forall name | name in ["sub", "alias", "aid", "pid", "mid", "ltype"]
      ensures ClaimStr(WithGrace(claims), name) == ClaimStr(claims, name)
    {
      assert name[0] != 'e' && name[0] != 'g' && (name[0] != 'l' || |name| == 5);
      OtherClaimsStay(claims, name);
    }
  }

  lemma {:induction false} SameObjects(claims: Claims)
    ensures ClaimI64(WithGrace(claims), "iat") == ClaimI64(claims, "iat")
    ensures MetadataOf(WithGrace(claims)) == MetadataOf(claims)
    ensures EntitlementsOf(WithGrace(claims)) == EntitlementsOf(claims)
  {
    assert "iat"[0] == 'i' && "pmd"[0] == 'p' && "ent"[1] == 'n';
    OtherClaimsStay(claims, "iat");
    OtherClaimsStay(claims, "pmd");
    OtherClaimsStay(claims, "ent");
  }

  lemma {:induction false} SameTimes(claims: Claims)
    requires WithoutGrace(claims)
    ensures EndSecs(WithGrace(claims)) == EndSecs(claims) && GraceSecs(WithGrace(claims)) == GraceSecs(claims)
  {
    WholeNumbersRead(EndSecs(claims));
    WholeNumbersRead(GraceSecs(claims));
    assert "exp"[0] != "grc"[0];
    var w := WithGrace(claims);
    assert w["grc"] == Num(GraceSecs(claims) as real) && w["exp"] == Num(EndSecs(claims) as real);
  }

  lemma {:induction false} SameLicence(claims: Claims)
    requires WithoutGrace(claims)
    ensures LicenseOf(WithGrace(claims)) == LicenseOf(claims)
  {
    SameTexts(claims);
    SameObjects(claims);
    SameTimes(claims);
  }

  // `token'` is what re-issuing `token` in the `grc` format gives: it verifies under the same keys.
  ghost predicate Reissued(lib: Lib, token: string, token': string) {
    forall key :: ReissuedUnder(lib, token, token', key)
  }

  predicate ReissuedUnder(lib: Lib, token: string, token': string, key: VerifyingKey) {
    match Authentic(lib, token, key)
    case Ok(claims) => WithoutGrace(claims) && Authentic(lib, token', key) == Ok(WithGrace(claims))
    case Err(e) => Authentic(lib, token', key) == Err(e)
  }

  lemma {:induction false} SameToken(lib: Lib, sub: Claims, project: Claims, daily: Claims, token: string,
                                     token': string)
    requires Reissued(lib, token, token')
    ensures VerifyToken(lib, sub, project, daily, token) == VerifyToken(lib, sub, project, daily, token')
  {
    var key := KeyFromCert(lib, daily, "dpk");
    if key.Ok? {
      assert ReissuedUnder(lib, token, token', key.value);
      var claims := Authentic(lib, token, key.value);
      if claims.Ok? {
        SameLicence(claims.value);
      }
    }
  }

  // Both formats get the same answer, licence or error, at every instant.
  lemma {:induction false} FormatsAreEquivalent(lib: Lib, masters: seq<VerifyingKey>, token: string, token': string,
                                                chain: CertChain, machineId: string, now: Instant, renewalFailed: bool)
    requires Reissued(lib, token, token')
    ensures CheckLicense(lib, masters, Record(token, chain), machineId, now, renewalFailed)
         == CheckLicense(lib, masters, Record(token', chain), machineId, now, renewalFailed)
  {
    var sub := TryMasters(lib, masters, chain.submaster, now, Strict);
    if sub.Ok? {
      var project := VerifyLink(lib, sub.value, "spk", chain.project, now, Strict);
      if project.Ok? {
        var daily := VerifyLink(lib, project.value, "ppk", chain.daily, now, IgnoreExpiry);
        if daily.Ok? {
          SameToken(lib, sub.value, project.value, daily.value, token, token');
        }
      }
    }
  }
}
