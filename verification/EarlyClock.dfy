/** For a clock before 1970 certificates are checked as if it showed 1970. One record on which a licence
    is therefore accepted before the daily certificate was issued. */
module EarlyClock {
  import opened Wrappers
  import opened Time
  import opened Windows
  import opened Domain
  import opened Jwt
  import opened Verify
  import opened Validate
  import opened Trust
  import opened Pipeline

  // Everything the certificates say: issued at 1970-01-01T00:00:00Z, and valid for ten seconds.
  const CERT: Claims :=
    map["alg" := Str("EdDSA"), "iss" := Str(ISSUER), "iat" := Num(0.0), "exp" := Num(10.0),
        "spk" := Str(""), "ppk" := Str(""), "dpk" := Str("")]

  // The activation token, issued five seconds later with five seconds of grace.
  const TOKEN: Claims :=
    map["alg" := Str("EdDSA"), "iss" := Str(ISSUER), "iat" := Num(5.0), "exp" := Num(10.0), "grc" := Num(5.0)]

  const KEY: VerifyingKey := VerifyingKey([])

  function Zeros(n: nat): (z: Bytes)
    ensures |z| == n
  {
    seq(n, i => 0)
  }

  // One key, which signs everything; the part "t" decodes to the token and any other to a certificate.
  const LIB := Lib(
    base64 := s => Some(if s == "t" then Zeros(64) else Zeros(63) + [1]),
    json := (b: Bytes) => Some(Obj(if b == Zeros(64) then TOKEN else CERT)),
    hex := s => Some(Zeros(32)),
    point := b => Some(KEY),
    sigOk := (k, s, g) => true)

  const RECORD := Record("t.t.t", CertChain("c.c.c", "c.c.c", "c.c.c"))

  lemma Speaks(token: string, part: string, claims: Claims)
    requires '.' !in part && token == part + "." + part + "." + part
    requires ClaimStr(claims, "alg") == Some("EdDSA") && ClaimStr(claims, "iss") == Some(ISSUER)
    requires claims == if part == "t" then TOKEN else CERT
    ensures Says(LIB, token, KEY, claims)
  {
    assert (Zeros(63) + [1])[63] != Zeros(64)[63];
    assert Parts(token, part, part, part) && PartsSay(LIB, part, part, part, KEY, claims);
  }

  lemma CertSays()
    ensures ClaimStr(CERT, "alg") == Some("EdDSA") && ClaimStr(CERT, "iss") == Some(ISSUER)
    ensures CERT["iat"] == Num(0.0) && CERT["exp"] == Num(10.0) && "nbf" !in CERT && "pid" !in CERT
  {
    assert "iat"[2] == 't' && "exp"[0] == 'e' && "nbf"[0] == 'n' && "pid"[1] == 'i' && "iss"[1] == 's';
    assert "alg"[0] == 'a' && "spk"[0] == 's' && "ppk"[1] == 'p' && "dpk"[0] == 'd';
  }

  lemma CertNames()
    ensures CERT["spk"] == Str("") && CERT["ppk"] == Str("") && CERT["dpk"] == Str("")
  {
    assert "spk"[0] == 's' && "ppk"[0] == 'p' && "dpk"[0] == 'd';
  }

  lemma TokenSays()
    ensures ClaimStr(TOKEN, "alg") == Some("EdDSA") && ClaimStr(TOKEN, "iss") == Some(ISSUER)
    ensures TOKEN["iat"] == Num(5.0) && TOKEN["exp"] == Num(10.0) && TOKEN["grc"] == Num(5.0) && "mid" !in TOKEN
  {
    assert "iat"[2] == 't' && "exp"[0] == 'e' && "grc"[0] == 'g' && "mid"[0] == 'm' && "iss"[1] == 's';
    assert "alg"[0] == 'a';
  }

  lemma {:induction false} CertKeys()
    ensures NamesKey(LIB, CERT, "spk", KEY) && NamesKey(LIB, CERT, "ppk", KEY) && NamesKey(LIB, CERT, "dpk", KEY)
  {
    CertNames();
  }

  lemma {:induction false} TokenTimes()
    ensures var lic := LicenseOf(TOKEN);
            && lic.issuedAt == 5 * SECOND && lic.expiresAt == 10 * SECOND && lic.gracePeriod == 5 * SECOND
            && lic.machineId == ""
  {
    TokenSays();
    assert ToI64(5.0) == 5 && ToI64(10.0) == 10;
  }

  lemma {:induction false} CertTimes()
    ensures ClaimI64(CERT, "iat") == Some(0) && ClaimI64(CERT, "exp") == Some(10)
    ensures ClaimI64(CERT, "nbf") == None && ClaimStr(CERT, "pid") == None
  {
    CertSays();
    assert ToI64(0.0) == 0 && ToI64(10.0) == 10;
  }

  const CHAIN := Chain(CERT, CERT, CERT, LicenseOf(TOKEN))

  // One key signs every link of a consistent chain.
  ghost predicate SignedByOne(lib: Lib, key: VerifyingKey, rec: Record, chain: Chain, claims: Claims) {
    && Says(lib, rec.chain.submaster, key, chain.submaster) && Says(lib, rec.chain.project, key, chain.project)
    && Says(lib, rec.chain.daily, key, chain.daily) && Says(lib, rec.token, key, claims)
    && NamesKey(lib, chain.submaster, "spk", key) && NamesKey(lib, chain.project, "ppk", key)
    && NamesKey(lib, chain.daily, "dpk", key)
    && LicenceMeans(claims, chain.lic) && Consistent(chain.lic, chain.project, chain.daily)
  }

  lemma {:induction false} OneKeyHolds(lib: Lib, key: VerifyingKey, rec: Record, chain: Chain, claims: Claims)
    requires SignedByOne(lib, key, rec, chain, claims)
    ensures LinksHold(lib, rec, chain)
  {
    assert LinkSays(lib, chain.daily, "dpk", rec.token, claims);
  }

  lemma {:induction false} OneKeySuffices(lib: Lib, key: VerifyingKey, rec: Record, chain: Chain, claims: Claims)
    requires SignedByOne(lib, key, rec, chain, claims)
    ensures Timeless(lib, [key], rec) == Ok(chain)
  {
    OneKeyHolds(lib, key, rec, chain, claims);
    VerifiesIffTrusted(lib, [key], rec, chain);
    assert key in [key];
  }

  lemma {:induction false} ChainIsConsistent()
    ensures Consistent(CHAIN.lic, CHAIN.project, CHAIN.daily)
  {
    CertTimes();
    TokenTimes();
  }

  lemma {:induction false} RecordSpeaks()
    ensures Says(LIB, "c.c.c", KEY, CERT) && Says(LIB, "t.t.t", KEY, TOKEN)
  {
    CertSays();
    TokenSays();
    Speaks("c.c.c", "c", CERT);
    Speaks("t.t.t", "t", TOKEN);
  }

  lemma {:induction false} RecordIsSigned()
    ensures SignedByOne(LIB, KEY, RECORD, CHAIN, TOKEN)
  {
    RecordSpeaks();
    CertKeys();
    ChainIsConsistent();
    LicenceIsWhatClaimsMean(TOKEN, CHAIN.lic);
  }

  lemma {:induction false} RecordIsTrusted()
    ensures Timeless(LIB, [KEY], RECORD) == Ok(CHAIN)
  {
    RecordIsSigned();
    OneKeySuffices(LIB, KEY, RECORD, CHAIN, TOKEN);
  }

  lemma {:induction false} CertWindows()
    ensures CertWindow(CERT, Strict) == Span(None, Some(11 * SECOND - 1))
    ensures CertWindow(CERT, IgnoreExpiry) == Span(None, None)
  {
    CertTimes();
  }

  // The licence is accepted at `now` when its chain is trusted and every bound is met.
  lemma {:induction false} WithinBounds(lib: Lib, masters: seq<VerifyingKey>, rec: Record, chain: Chain, now: Instant)
    requires Timeless(lib, masters, rec) == Ok(chain) && WellFormed(chain.lic, chain.lic.machineId)
    requires CertWindow(chain.submaster, Strict).Contains(now) && CertWindow(chain.project, Strict).Contains(now)
    requires CertWindow(chain.daily, IgnoreExpiry).Contains(now)
    requires now <= chain.lic.expiresAt && now <= Deadline(chain.lic)
    ensures Accepts(lib, masters, rec, chain.lic.machineId, now)
  {
    AcceptsExactlyInTheWindow(lib, masters, rec, chain.lic.machineId, now, false);
  }

  // With the clock a nanosecond before 1970 the licence is accepted, and the daily certificate was
  // issued later, in 1970.
  lemma {:induction false} AcceptedBeforeTheDailyCert()
    ensures Accepts(LIB, [KEY], RECORD, CHAIN.lic.machineId, -1)
    ensures Timeless(LIB, [KEY], RECORD) == Ok(CHAIN)
    ensures ClaimI64(CHAIN.daily, "iat") == Some(0) && -1 < UnixToInstant(0)
  {
    RecordIsTrusted();
    CertTimes();
    CertWindows();
    TokenTimes();
    WithinBounds(LIB, [KEY], RECORD, CHAIN, -1);
  }

  // A record is accepted at some instant before its daily certificate's `iat` exactly when it is accepted
  // at all and none of its certificates claims an `iat` or `nbf` after 1970, so that its interval has no
  // lower end.
  lemma {:induction false} AcceptedTooEarlyIff(lib: Lib, masters: seq<VerifyingKey>, rec: Record, machineId: string,
                                               iat: int)
    requires Timeless(lib, masters, rec).Ok?
    requires ClaimI64(Timeless(lib, masters, rec).value.daily, "iat") == Some(iat)
    ensures var w := AcceptingWindow(lib, masters, rec, machineId);
            (exists now :: now < UnixToInstant(iat) && Accepts(lib, masters, rec, machineId, now)) <==>
            w.Span? && w.from.None?
  {
    var w := AcceptingWindow(lib, masters, rec, machineId);
    if now :| now < UnixToInstant(iat) && Accepts(lib, masters, rec, machineId, now) {
      AcceptsExactlyInTheWindow(lib, masters, rec, machineId, now, false);
      AcceptedWithinTheDailyCert(lib, masters, rec, machineId, now);
      LowerEndsAreAfter1970(lib, masters, rec, machineId);
    }
    if w.Span? && w.from.None? {
      var early := Earlier(w.until, Some(UnixToInstant(iat))).value - 1;
      AcceptsExactlyInTheWindow(lib, masters, rec, machineId, early, false);
      assert early < UnixToInstant(iat) && Accepts(lib, masters, rec, machineId, early);
    }
  }

  lemma {:induction false} LowerEndsAreAfter1970(lib: Lib, masters: seq<VerifyingKey>, rec: Record, machineId: string)
    ensures var w := AcceptingWindow(lib, masters, rec, machineId); w.Span? && w.from.Some? ==> w.from.value > 0
  {
  }
}
