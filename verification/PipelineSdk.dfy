/** The protocol run with the pipeline itself: what a cached record and an answer are worth. */
module PipelineSdk {
  import opened Wrappers
  import opened Time
  import opened Domain
  import opened Jwt
  import opened Verify
  import opened Validate
  import opened Trust
  import Pipeline
  import opened Protocol
  import opened CacheSafety
  import opened Answers
  import opened LockDiscipline
  import opened Windows

  // The `Sdk` that trusts `masters` and verifies with the real chain check.
  function SdkOf(lib: Lib, masters: seq<VerifyingKey>, machineId: string, cacheOn: bool): Sdk {
    Sdk((rec, now) => Verified(lib, masters, rec, now), machineId, cacheOn)
  }

  function Verified(lib: Lib, masters: seq<VerifyingKey>, rec: Record, now: Instant): Option<License> {
    var r := VerifyActivation(lib, masters, rec, now);
    if r.Ok? then Some(r.value) else None
  }

  // `rec` is signed from a trusted master down to its token, the token names this machine, and the
  // instant lies in the interval the chain and the licence span.
  ghost predicate Vouched(lib: Lib, masters: seq<VerifyingKey>, machineId: string, rec: Record, at: Instant) {
    && Pipeline.AcceptingWindow(lib, masters, rec, machineId).Contains(at)
    && exists chain :: Trusted(lib, masters, rec, chain) && chain.lic.machineId == machineId
  }

  lemma {:induction false} SdkVerifiesInWindow(lib: Lib, masters: seq<VerifyingKey>, machineId: string, cacheOn: bool,
                                               rec: Record, at: Instant)
    ensures var chain := Timeless(lib, masters, rec);
            SdkOf(lib, masters, machineId, cacheOn).verify(rec, at)
            == if chain.Ok? && Pipeline.ChainWindow(chain.value).Contains(at) then Some(chain.value.lic) else None
  {
    Pipeline.VerifiesExactlyInWindow(lib, masters, rec, at);
  }

  lemma {:induction false} SdkAcceptsInWindow(lib: Lib, masters: seq<VerifyingKey>, machineId: string, cacheOn: bool,
                                              rec: Record, at: Instant)
    ensures SdkOf(lib, masters, machineId, cacheOn).Accepts(rec, at) <==>
            Pipeline.AcceptingWindow(lib, masters, rec, machineId).Contains(at)
  {
    Pipeline.AcceptsExactlyInTheWindow(lib, masters, rec, machineId, at, false);
  }

  lemma {:induction false} AcceptedIsVouched(lib: Lib, masters: seq<VerifyingKey>, machineId: string, cacheOn: bool,
                                             rec: Record, at: Instant)
    ensures SdkOf(lib, masters, machineId, cacheOn).Accepts(rec, at) <==> Vouched(lib, masters, machineId, rec, at)
  {
    SdkAcceptsInWindow(lib, masters, machineId, cacheOn, rec, at);
    if Pipeline.AcceptingWindow(lib, masters, rec, machineId).Contains(at) {
      VerifiesIffTrusted(lib, masters, rec, Timeless(lib, masters, rec).value);
    }
  }

  // In every state of every run the cache is empty, as it was at the start, or holds a record that a
  // trusted master vouches for, for this machine, at an instant the clock has shown.
  lemma {:induction false} TheCacheIsVouchedFor(lib: Lib, masters: seq<VerifyingKey>, machineId: string, cacheOn: bool,
                                                origin: State, es: seq<Event>)
    requires Initial(origin) && Exec(SdkOf(lib, masters, machineId, cacheOn), origin, es).Some?
    ensures var s := Exec(SdkOf(lib, masters, machineId, cacheOn), origin, es).value;
            s.sh.cache.None? || s.sh.cache == origin.sh.cache
            || exists at :: at in s.past && Vouched(lib, masters, machineId, s.sh.cache.value, at)
  {
    var sdk := SdkOf(lib, masters, machineId, cacheOn);
    CacheProvenance(sdk, origin, es);
    var s := Exec(sdk, origin, es).value;
    if s.sh.cache.Some? && s.sh.cache != origin.sh.cache {
      var at :| at in s.past && sdk.Accepts(s.sh.cache.value, at);
      AcceptedIsVouched(lib, masters, machineId, cacheOn, s.sh.cache.value, at);
    }
  }

  /******* What `check` answers about one record, instant by instant *******/

  // It hands out the licence at exactly the instants of the accepting interval, and reports an
  // expired licence exactly when the chain verifies, the fields are in order and its end is past.
  lemma {:induction false} ChecksAnswerByTheWindow(lib: Lib, masters: seq<VerifyingKey>, machineId: string,
                                                   cacheOn: bool,
                                                   rec: Record, failed: bool, now: Instant)
    ensures var answer := AnswerFor(SdkOf(lib, masters, machineId, cacheOn), Some(rec), failed, now);
            && (answer.Licensed? <==> Pipeline.AcceptingWindow(lib, masters, rec, machineId).Contains(now))
            && (answer == LicenseExpired <==>
                  Timeless(lib, masters, rec).Ok?
                  && Pipeline.ChainWindow(Timeless(lib, masters, rec).value).Contains(now)
                  && WellFormed(Timeless(lib, masters, rec).value.lic, machineId)
                  && Timeless(lib, masters, rec).value.lic.expiresAt < now)
  {
    AnswerIff(SdkOf(lib, masters, machineId, cacheOn), rec, failed, now);
    SdkVerifiesInWindow(lib, masters, machineId, cacheOn, rec, now);
    SdkAcceptsInWindow(lib, masters, machineId, cacheOn, rec, now);
  }

  // So for an unchanged record, whatever the flag shows each time: a `check` that has stopped handing
  // out the licence does not start again at a later reading.
  lemma {:induction false} ChecksDoNotReturnToOk(lib: Lib, masters: seq<VerifyingKey>, machineId: string,
                                                 cacheOn: bool, rec: Record, fa: bool, fb: bool, fc: bool,
                                                 a: Instant, b: Instant, c: Instant)
    requires a <= b <= c
    ensures var sdk := SdkOf(lib, masters, machineId, cacheOn);
            AnswerFor(sdk, Some(rec), fa, a).Licensed? && !AnswerFor(sdk, Some(rec), fb, b).Licensed? ==>
              !AnswerFor(sdk, Some(rec), fc, c).Licensed?
  {
    ChecksAnswerByTheWindow(lib, masters, machineId, cacheOn, rec, fa, a);
    ChecksAnswerByTheWindow(lib, masters, machineId, cacheOn, rec, fb, b);
    ChecksAnswerByTheWindow(lib, masters, machineId, cacheOn, rec, fc, c);
  }

  /******* The answers of a run *******/

  // Every licence a `check` of a run answers with is one that a trusted master's chain vouches for, in
  // the record the cache held at that check's load, at the reading the check took, even when the cache
  // started out forged.
  lemma {:induction false} LicencesAreVouchedFor(lib: Lib, masters: seq<VerifyingKey>, machineId: string,
                                                 cacheOn: bool, ss: seq<State>, es: seq<Event>, j: nat, t: Tid,
                                                 answer: Answer)
    returns (tr: Trail)
    requires Behaviour(SdkOf(lib, masters, machineId, cacheOn), ss, es) && Initial(ss[0])
    requires AnswersAt(SdkOf(lib, masters, machineId, cacheOn), ss, es, j, t, true, answer) && answer.Licensed?
    ensures InCheck(ss, es, tr.load, j, t) && tr.load < tr.clock <= j && ReadsClock(ss, es, tr.clock, t)
    ensures ss[tr.load].sh.cache.Some?
    ensures var rec, at := ss[tr.load].sh.cache.value, ss[tr.clock].sh.clock;
            && Vouched(lib, masters, machineId, rec, at)
            && Timeless(lib, masters, rec).Ok? && answer.lic == Timeless(lib, masters, rec).value.lic
  {
    var sdk := SdkOf(lib, masters, machineId, cacheOn);
    tr := ChecksAnswerForTheirLoad(sdk, ss, es, j, t, true, answer);
    var rec, at := ss[tr.load].sh.cache.value, ss[tr.clock].sh.clock;
    AnswerIff(sdk, rec, ss[j].sh.failed, at);
    AcceptedIsVouched(lib, masters, machineId, cacheOn, rec, at);
    SdkVerifiesInWindow(lib, masters, machineId, cacheOn, rec, at);
  }

  // From state `p` on the cache holds `rec`, and from state `q` on the clock does not go back.
  ghost predicate Settled(ss: seq<State>, es: seq<Event>, rec: Record, p: nat, q: nat) {
    && (forall k :: p <= k < |ss| ==> Holds(ss[k], rec))
    && (forall k :: q <= k < |es| && k < |ss| ==> Forward(ss[k], es[k]))
  }

  predicate Holds(s: State, rec: Record) { s.sh.cache == Some(rec) }

  predicate Forward(s: State, e: Event) { e.Tick? ==> s.sh.clock <= e.now }

  predicate NotBack(s: State, s': State) { s.sh.clock <= s'.sh.clock }

  lemma {:induction false} ForwardStep(sdk: Sdk, s: State, e: Event, s': State)
    requires Next(sdk, s, e) == Some(s') && Forward(s, e)
    ensures NotBack(s, s')
  {
    if e.Run? {
      OwnMove(sdk, s, e);
      OnlyTicksTick(sdk, e.t, s.Pc(e.t), s.sh, e.choice);
    }
  }

  lemma {:induction false} ClockGrows(sdk: Sdk, ss: seq<State>, es: seq<Event>, q: nat, m: nat)
    requires Behaviour(sdk, ss, es) && q <= m < |ss| && forall k :: q <= k < |es| ==> Forward(ss[k], es[k])
    ensures ss[q].sh.clock <= ss[m].sh.clock
  {
    forall k | q <= k < |es| ensures NotBack(ss[k], ss[k + 1]) {
      assert Forward(ss[k], es[k]);
      ForwardStep(sdk, ss[k], es[k], ss[k + 1]);
    }
    ReadingsGrow(ss, q, m);
  }

  lemma {:induction false} ReadingsGrow(ss: seq<State>, q: nat, m: nat)
    requires q <= m < |ss| && forall k {:trigger ss[k]} :: q <= k < |ss| - 1 ==> NotBack(ss[k], ss[k + 1])
    ensures ss[q].sh.clock <= ss[m].sh.clock
    decreases m
  {
    if q == m {
    } else {
      ReadingsGrow(ss, q, m - 1);
      assert NotBack(ss[m - 1], ss[m - 1 + 1]);
    }
  }

  lemma {:induction false} OnlyTicksTick(sdk: Sdk, t: Tid, pc: Pc, sh: Shared, ch: Choice)
    requires ThreadMove(sdk, t, pc, sh, ch).Move?
    ensures ThreadMove(sdk, t, pc, sh, ch).sh.clock == sh.clock
  {
    match pc
    case Checking(c) =>
    case Calling(c) =>
    case Renewing(b) =>
    case _ =>
  }

  // Whether the instant lies past the upper end of the accepting interval, or there is none.
  predicate Past(w: Window, at: Instant) {
    w.Never? || (w.until.Some? && w.until.value < at)
  }

  // Over any run: while the cache keeps its record and the clock does not go back, once the clock is past
  // the upper end of the record's interval, no `check` that then loads or still has to read its clock
  // answers with a licence again.
  lemma {:induction false} ChecksStayRejected(lib: Lib, masters: seq<VerifyingKey>, machineId: string, cacheOn: bool,
                                              ss: seq<State>, es: seq<Event>, rec: Record, p: nat, q: nat,
                                              j: nat, t: Tid, loaded: bool, answer: Answer)
    returns (tr: Trail)
    requires Behaviour(SdkOf(lib, masters, machineId, cacheOn), ss, es) && Initial(ss[0])
    requires p <= q < |ss| && Settled(ss, es, rec, p, q)
    requires Past(Pipeline.AcceptingWindow(lib, masters, rec, machineId), ss[q].sh.clock)
    requires AnswersAt(SdkOf(lib, masters, machineId, cacheOn), ss, es, j, t, loaded, answer)
    ensures loaded ==> InCheck(ss, es, tr.load, j, t) && tr.load < tr.clock <= j && ReadsClock(ss, es, tr.clock, t)
    ensures !loaded || (p <= tr.load && q <= tr.clock) ==> !answer.Licensed?
  {
    var sdk := SdkOf(lib, masters, machineId, cacheOn);
    tr := ChecksAnswerForTheirLoad(sdk, ss, es, j, t, loaded, answer);
    if loaded && p <= tr.load && q <= tr.clock {
      assert Holds(ss[tr.load], rec);
      ClockGrows(sdk, ss, es, q, tr.clock);
      ChecksAnswerByTheWindow(lib, masters, machineId, cacheOn, rec, ss[j].sh.failed, ss[tr.clock].sh.clock);
    }
  }
}
