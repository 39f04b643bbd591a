/** `renew` reads the clock before it takes the lock. Three runs on which that breaks the five minutes
    between an attempt and the next background renewal, or the ten between two live renewals, although the
    clock never goes back. */
module StaleMark {
  import opened Wrappers
  import opened Time
  import opened Domain
  import opened Validate
  import opened Protocol
  import opened Ownership
  import opened Spacing
  import opened Progress

  const T0: Instant := 10_000 * SECOND
  const T1: Instant := T0 + 400 * SECOND

  const OLD_LICENSE :=
    License("KEY", "", "ACT", "PROJECT", "MACHINE", SECOND, 20_000 * SECOND, 20_000 * SECOND, Perpetual, map[], None)

  const CACHED := Record("TOKEN", CertChain("SUBMASTER", "PROJECT", "DAILY"))

  const SDK := Sdk((rec, now) => Some(OLD_LICENSE), "MACHINE", true)

  const START := State(Shared(None, FRESH_RENEWAL, false, Some(CACHED), T0), map[], {T0}, Nothing)

  const CALLER: Tid := 1
  const CHECKER: Tid := 2
  const RENEWER: Tid := 3
  const OTHER_CALLER: Tid := 4
  const OTHER_CHECKER: Tid := 5

  // A manual `renew` reads the clock at T0 and is then held up.
  const HELD_UP := [Run(CALLER, Invoke(Renew("ACT"))), Run(CALLER, Go), Tick(T1)]

  // 400 s later a `check` starts a background renewal and returns.
  const SPAWNED := [Run(CHECKER, Spawned(RENEWER)), Run(CHECKER, Go), Run(CHECKER, Go)]

  // The renewal gets a server error, finds its activation in the cache, records its outcome and ends.
  const ANSWERED :=
    [Run(RENEWER, Receive(OtherError)), Run(RENEWER, Go), Run(RENEWER, Go), Run(RENEWER, Disk(true)), Run(RENEWER, Go)]

  const RECORDED := [Run(RENEWER, Go), Run(RENEWER, Disk(true)), Run(RENEWER, Go)]

  const DROPPED := [Run(RENEWER, Go), Run(RENEWER, Go), Run(RENEWER, Go)]

  // A manual `renew` that has read the clock puts its reading on record.
  function Marking(t: Tid): seq<Event> {
    [Run(t, Go), Run(t, Go), Run(t, Go)]
  }

  // The clock never goes back: from T0 it only ever moves to T1, which is later.
  predicate Forward(es: seq<Event>) {
    forall e :: e in es && e.Tick? ==> e.now == T1
  }

  predicate Still(es: seq<Event>) {
    forall e :: e in es ==> e.Run?
  }

  // A run given state by state.
  lemma {:induction false} ExecThrough(sdk: Sdk, ss: seq<State>, es: seq<Event>)
    requires |ss| == |es| + 1
    requires forall i :: 0 <= i < |es| ==> Next(sdk, ss[i], es[i]) == Some(ss[i + 1])
    ensures Exec(sdk, ss[0], es) == Some(ss[|es|])
  {
    BehavioursAreRuns(sdk, ss, es);
  }

  function Go1(s: State, e: Event): State {
    var s' := Next(SDK, s, e);
    if s'.Some? then s'.value else s
  }

  // Nothing in a part of the run takes back the start at T1.
  ghost predicate KeepsStart(s: State, s': State) {
    && (AllBy(s'.hist, T1 - FIVE_MINUTES) ==> AllBy(s.hist, T1 - FIVE_MINUTES))
    && StartsWithin(s'.hist, T1, T1) == StartsWithin(s.hist, T1, T1)
  }

  const MARKED_IN_FLIGHT := Renewal(1, Some(T1), Some(T1))

  lemma CheckSpawns(s: State) returns (es: seq<Event>, s': State)
    requires s.sh == Shared(Some(CHECKER), MARKED_IN_FLIGHT, false, Some(CACHED), T1)
    requires s.Pc(CHECKER).Checking? && s.Pc(CHECKER).check.CheckSpawn?
    requires s.Pc(CHECKER).check.job == Job(1, "ACT", T1)
    requires RENEWER !in s.threads
    ensures Exec(SDK, s, es) == Some(s') && Forward(es)
    ensures && s'.sh == s.sh.(holder := None)
            && s'.Pc(CALLER) == s.Pc(CALLER) && s'.Pc(CHECKER).Idle?
            && s'.Pc(OTHER_CHECKER) == s.Pc(OTHER_CHECKER)
            && s'.Pc(RENEWER) == Renewing(BgPost(Job(1, "ACT", T1)))
            && KeepsStart(s, s')
  {
    var s1 := Go1(s, SPAWNED[0]);
    assert Next(SDK, s, SPAWNED[0]) == Some(s1);
    var s2 := Go1(s1, SPAWNED[1]);
    assert Next(SDK, s1, SPAWNED[1]) == Some(s2);
    var s3 := Go1(s2, SPAWNED[2]);
    assert Next(SDK, s2, SPAWNED[2]) == Some(s3);
    es, s' := SPAWNED, s3;
    ExecThrough(SDK, [s, s1, s2, s3], SPAWNED);
  }

  lemma RenewalIsAnswered(s: State) returns (es: seq<Event>, s': State)
    requires s.sh == Shared(None, MARKED_IN_FLIGHT, false, Some(CACHED), T1)
    requires s.Pc(RENEWER) == Renewing(BgPost(Job(1, "ACT", T1)))
    ensures Exec(SDK, s, es) == Some(s') && Forward(es)
    ensures && s'.sh == s.sh.(holder := Some(RENEWER))
            && s'.Pc(CALLER) == s.Pc(CALLER) && s'.Pc(CHECKER) == s.Pc(CHECKER)
            && s'.Pc(RENEWER) == Renewing(BgStore(Job(1, "ACT", T1), Failed, Some(Held(CACHED, T1))))
            && KeepsStart(s, s')
  {
    var s1 := Go1(s, ANSWERED[0]);
    assert Next(SDK, s, ANSWERED[0]) == Some(s1);
    var s2 := Go1(s1, ANSWERED[1]);
    assert Next(SDK, s1, ANSWERED[1]) == Some(s2);
    var s3 := Go1(s2, ANSWERED[2]);
    assert Next(SDK, s2, ANSWERED[2]) == Some(s3);
    var s4 := Go1(s3, ANSWERED[3]);
    assert Next(SDK, s3, ANSWERED[3]) == Some(s4);
    var s5 := Go1(s4, ANSWERED[4]);
    assert Next(SDK, s4, ANSWERED[4]) == Some(s5);
    es, s' := ANSWERED, s5;
    ExecThrough(SDK, [s, s1, s2, s3, s4, s5], ANSWERED);
  }

  lemma OutcomeIsRecorded(s: State) returns (es: seq<Event>, s': State)
    requires s.sh == Shared(Some(RENEWER), MARKED_IN_FLIGHT, false, Some(CACHED), T1)
    requires s.Pc(RENEWER) == Renewing(BgStore(Job(1, "ACT", T1), Failed, Some(Held(CACHED, T1))))
    ensures Exec(SDK, s, es) == Some(s') && Forward(es)
    ensures && s'.sh == s.sh.(holder := None) && s'.Pc(RENEWER) == Renewing(BgDropLock(Job(1, "ACT", T1)))
            && s'.Pc(CALLER) == s.Pc(CALLER) && s'.Pc(CHECKER) == s.Pc(CHECKER)
            && KeepsStart(s, s')
  {
    var s1 := Go1(s, RECORDED[0]);
    assert Next(SDK, s, RECORDED[0]) == Some(s1);
    var s2 := Go1(s1, RECORDED[1]);
    assert Next(SDK, s1, RECORDED[1]) == Some(s2);
    s' := Go1(s2, RECORDED[2]);
    assert Next(SDK, s2, RECORDED[2]) == Some(s');
    es := RECORDED;
    ExecThrough(SDK, [s, s1, s2, s'], RECORDED);
  }

  lemma MarkIsDropped(s: State) returns (es: seq<Event>, s': State)
    requires s.sh == Shared(None, MARKED_IN_FLIGHT, false, Some(CACHED), T1)
    requires s.Pc(RENEWER) == Renewing(BgDropLock(Job(1, "ACT", T1)))
    ensures Exec(SDK, s, es) == Some(s') && Forward(es)
    ensures && s'.sh == Shared(None, Renewal(1, None, Some(T1)), false, Some(CACHED), T1)
            && s'.Pc(CALLER) == s.Pc(CALLER) && s'.Pc(CHECKER) == s.Pc(CHECKER)
            && KeepsStart(s, s')
  {
    var s1 := Go1(s, DROPPED[0]);
    assert Next(SDK, s, DROPPED[0]) == Some(s1);
    var s2 := Go1(s1, DROPPED[1]);
    assert Next(SDK, s1, DROPPED[1]) == Some(s2);
    s' := Go1(s2, DROPPED[2]);
    assert Next(SDK, s2, DROPPED[2]) == Some(s');
    es := DROPPED;
    ExecThrough(SDK, [s, s1, s2, s'], DROPPED);
  }

  lemma Marks(s: State, t: Tid, now: Instant) returns (es: seq<Event>, s': State)
    requires s.sh.holder.None? && s.Pc(t) == Calling(RenewLock("ACT", now))
    ensures Exec(SDK, s, es) == Some(s') && Still(es)
    ensures && s'.sh == s.sh.(renewal := s.sh.renewal.(lastAttempt := Some(now)))
            && s'.hist == Then(s.hist, Marked(now))
            && forall u: Tid :: u != t ==> s'.Pc(u) == s.Pc(u)
  {
    es := Marking(t);
    var s1 := Go1(s, es[0]);
    assert Next(SDK, s, es[0]) == Some(s1);
    var s2 := Go1(s1, es[1]);
    assert Next(SDK, s1, es[1]) == Some(s2);
    s' := Go1(s2, es[2]);
    assert Next(SDK, s2, es[2]) == Some(s');
    ExecThrough(SDK, [s, s1, s2, s'], es);
  }

  lemma CallerIsHeldUp() returns (es: seq<Event>, s: State)
    ensures Exec(SDK, START, es) == Some(s) && Forward(es)
    ensures && s.sh == START.sh.(clock := T1) && s.hist == Nothing
            && s.threads == map[CALLER := Calling(RenewLock("ACT", T0))]
  {
    var s1 := Go1(START, HELD_UP[0]);
    assert Next(SDK, START, HELD_UP[0]) == Some(s1);
    var s2 := Go1(s1, HELD_UP[1]);
    assert Next(SDK, s1, HELD_UP[1]) == Some(s2);
    var s3 := Go1(s2, HELD_UP[2]);
    assert Next(SDK, s2, HELD_UP[2]) == Some(s3);
    es, s := HELD_UP, s3;
    ExecThrough(SDK, [START, s1, s2, s3], HELD_UP);
  }

  // Runs that follow each other are one run.
  lemma Joined(sdk: Sdk, s0: State, a: seq<Event>, s1: State, b: seq<Event>, s2: State, c: seq<Event>, s3: State)
    requires Exec(sdk, s0, a) == Some(s1) && Exec(sdk, s1, b) == Some(s2) && Exec(sdk, s2, c) == Some(s3)
    requires Forward(a) && Forward(b) && Forward(c)
    ensures Exec(sdk, s0, a + b + c) == Some(s3) && Forward(a + b + c)
  {
    ExecConcat(sdk, s0, a, b);
    ExecConcat(sdk, s0, a + b, c);
  }

  // `s` once `t` has begun a renewal in it.
  function Started(s: State, t: Tid): State {
    var job := Job(s.sh.renewal.attempt + 1, "ACT", s.sh.clock);
    After1(s, t, Checking(CheckSpawn(ViewOf(SDK, s, OLD_LICENSE), job)),
           s.sh.(holder := Some(t), renewal := Begin(s.sh.renewal, s.sh.clock)), Some(Began(job.attempt, job.start)))
  }

  // A `check` of the cached token that finds nothing recent on record.
  lemma CheckReaches(s: State, t: Tid)
    requires s.Pc(t).Idle? && s.sh.holder.None? && s.sh.cache == Some(CACHED) && s.sh.clock >= T1
    requires Due(s.sh.renewal, s.sh.clock)
    ensures Exec(SDK, s, DueCheck(t)) == Some(Started(s, t))
  {
    DueCheckStarts(SDK, s, t, OLD_LICENSE);
  }

  lemma DueCheckIsStill(t: Tid)
    ensures Still(DueCheck(t)) && Forward(DueCheck(t))
  {
  }

  // A renewal has begun at T1 in `s'`, and the threads that wait are where they were.
  predicate BeginsAtT1(s: State, r: Renewal, s': State) {
    && s'.sh == Shared(Some(CHECKER), Begin(r, T1), false, Some(CACHED), T1)
    && s'.Pc(CHECKER).Checking? && s'.Pc(CHECKER).check.CheckSpawn?
    && s'.Pc(CHECKER).check.job == Job(r.attempt + 1, "ACT", T1)
    && s'.Pc(CALLER) == s.Pc(CALLER) && s'.Pc(OTHER_CHECKER) == s.Pc(OTHER_CHECKER)
    && (RENEWER in s'.threads ==> RENEWER in s.threads)
    && s'.hist == Then(s.hist, Began(r.attempt + 1, T1))
  }

  lemma StartedAtT1(s: State, r: Renewal)
    requires s.sh == Shared(None, r, false, Some(CACHED), T1)
    ensures BeginsAtT1(s, r, Started(s, CHECKER))
  {
  }

  lemma CheckStarts(s: State, r: Renewal) returns (es: seq<Event>, s': State)
    requires s.sh == Shared(None, r, false, Some(CACHED), T1) && s.Pc(CHECKER).Idle? && Due(r, T1)
    ensures Exec(SDK, s, es) == Some(s') && Forward(es)
    ensures BeginsAtT1(s, r, s')
  {
    es, s' := DueCheck(CHECKER), Started(s, CHECKER);
    CheckReaches(s, CHECKER);
    StartedAtT1(s, r);
    DueCheckIsStill(CHECKER);
  }

  // While the manual `renew` is held up, a background renewal starts.
  lemma TheFirstStart() returns (es: seq<Event>, s: State)
    ensures Exec(SDK, START, es) == Some(s) && Forward(es)
    ensures && s.sh == Shared(None, MARKED_IN_FLIGHT, false, Some(CACHED), T1)
            && s.Pc(CALLER) == Calling(RenewLock("ACT", T0)) && s.Pc(CHECKER).Idle? && s.Pc(OTHER_CHECKER).Idle?
            && s.Pc(RENEWER) == Renewing(BgPost(Job(1, "ACT", T1)))
            && !AllBy(s.hist, T1 - FIVE_MINUTES) && StartsWithin(s.hist, T1, T1) == 1
  {
    var a, s1 := CallerIsHeldUp();
    var b, s2 := CheckStarts(s1, FRESH_RENEWAL);
    assert !AllBy(s2.hist, T1 - FIVE_MINUTES) && StartsWithin(s2.hist, T1, T1) == 1;
    var c, s3 := CheckSpawns(s2);
    es, s := a + b + c, s3;
    Joined(SDK, START, a, s1, b, s2, c, s3);
  }

  // That renewal ends, and the old reading goes on record.
  lemma TheStaleMark(s: State) returns (es: seq<Event>, s': State)
    requires s.sh == Shared(None, MARKED_IN_FLIGHT, false, Some(CACHED), T1)
    requires s.Pc(CALLER) == Calling(RenewLock("ACT", T0)) && s.Pc(RENEWER) == Renewing(BgPost(Job(1, "ACT", T1)))
    ensures Exec(SDK, s, es) == Some(s') && Forward(es)
    ensures && s'.sh == Shared(None, Renewal(1, None, Some(T0)), false, Some(CACHED), T1)
            && s'.Pc(CHECKER) == s.Pc(CHECKER)
            && KeepsStart(s, s')
  {
    var a, s1 := RenewalIsAnswered(s);
    var b, s2 := OutcomeIsRecorded(s1);
    var c, s3 := MarkIsDropped(s2);
    var d, s4 := Marks(s3, CALLER, T0);
    es, s' := a + b + c + d, s4;
    Joined(SDK, s, a, s1, b, s2, c, s3);
    ExecConcat(SDK, s, a + b + c, d);
  }

  // A run on which the clock never goes back, and still two background renewals start at the very same
  // instant.
  lemma TwoRenewalsAtOnce() returns (es: seq<Event>, s: State)
    ensures Initial(START) && Exec(SDK, START, es) == Some(s)
    ensures START.sh.clock == T0 && Forward(es)
    ensures !Spaced(s.hist) && LastStart(s.hist) == Some(T1) && StartsWithin(s.hist, T1, T1) == 2
  {
    var a, s1 := TheFirstStart();
    var b, s2 := TheStaleMark(s1);
    var c, s3 := CheckStarts(s2, Renewal(1, None, Some(T0)));
    es, s := a + b + c, s3;
    Joined(SDK, START, a, s1, b, s2, c, s3);
  }

  /******* Between two manual renewals and a background one *******/

  // While the first manual `renew` is held up, a second one reads the clock.
  const OVERTAKING := [Run(OTHER_CALLER, Invoke(Renew("ACT"))), Run(OTHER_CALLER, Go)]

  lemma OtherCallerReads(s: State) returns (es: seq<Event>, s': State)
    requires s.sh == Shared(None, FRESH_RENEWAL, false, Some(CACHED), T1) && s.hist == Nothing
    requires s.threads == map[CALLER := Calling(RenewLock("ACT", T0))]
    ensures Exec(SDK, s, es) == Some(s') && Forward(es)
    ensures && s'.sh == s.sh && s'.hist == Nothing && s'.Pc(CALLER) == s.Pc(CALLER) && s'.Pc(CHECKER).Idle?
            && s'.Pc(OTHER_CALLER) == Calling(RenewLock("ACT", T1))
  {
    var s1 := Go1(s, OVERTAKING[0]);
    assert Next(SDK, s, OVERTAKING[0]) == Some(s1);
    s' := Go1(s1, OVERTAKING[1]);
    assert Next(SDK, s1, OVERTAKING[1]) == Some(s');
    es := OVERTAKING;
    ExecThrough(SDK, [s, s1, s'], OVERTAKING);
  }

  // Its reading goes on record, and then the first one's older reading.
  lemma TheAttemptIsHidden() returns (es: seq<Event>, s: State)
    ensures Exec(SDK, START, es) == Some(s) && Forward(es)
    ensures s.sh == Shared(None, Renewal(0, None, Some(T0)), false, Some(CACHED), T1) && s.Pc(CHECKER).Idle?
    ensures !AllBy(s.hist, T1 - FIVE_MINUTES)
  {
    var a, s1 := CallerIsHeldUp();
    var b, s2 := OtherCallerReads(s1);
    var c, s3 := Marks(s2, OTHER_CALLER, T1);
    var d, s4 := Marks(s3, CALLER, T0);
    es, s := a + b + c + d, s4;
    Joined(SDK, START, a, s1, b, s2, c, s3);
    ExecConcat(SDK, START, a + b + c, d);
  }

  // A run without any earlier background renewal: a manual attempt is made at T1, and a background
  // renewal starts at that same instant, because the record says T0.
  lemma BackgroundStartsBesideAManualAttempt() returns (es: seq<Event>, s: State, s': State)
    ensures Exec(SDK, START, es) == Some(s) && Forward(es)
    ensures s.sh.clock == T1 && !RecordIsCurrent(s)
    ensures Exec(SDK, s, DueCheck(CHECKER)) == Some(s')
    ensures s'.hist == Then(s.hist, Began(1, T1)) && !AllBy(s.hist, T1 - FIVE_MINUTES) && !Spaced(s'.hist)
  {
    es, s := TheAttemptIsHidden();
    DueCheckStarts(SDK, s, CHECKER, OLD_LICENSE);
    s' := Exec(SDK, s, DueCheck(CHECKER)).value;
    OldRecordIsNotCurrent(s);
  }

  lemma OldRecordIsNotCurrent(s: State)
    requires s.sh.renewal == Renewal(0, None, Some(T0)) && !AllBy(s.hist, T1 - FIVE_MINUTES)
    ensures !RecordIsCurrent(s)
  {
    if AllBy(s.hist, T0) {
      AllByWeakens(s.hist, T0, T1 - FIVE_MINUTES);
    }
  }

  /******* Two live renewals *******/

  const T2: Instant := T1 + 700 * SECOND

  const HELD_UP_VIEW := View(OLD_LICENSE, T1, ValidateAt(OLD_LICENSE, "MACHINE", T1))

  const TAKEN_OVER := Renewal(2, None, Some(T2))

  // The thread that made the first start has read the clock again for another `check`, and is held up.
  predicate CheckIsHeldUp(s: State) {
    && s.Pc(CHECKER) == Checking(CheckTryLock(HELD_UP_VIEW, T1))
    && s.Pc(RENEWER) == Renewing(BgPost(Job(1, "ACT", T1)))
  }

  lemma AnotherCheckIsHeldUp() returns (es: seq<Event>, s: State)
    ensures Exec(SDK, START, es) == Some(s) && Forward(es)
    ensures s.sh == Shared(None, MARKED_IN_FLIGHT, false, Some(CACHED), T1) && CheckIsHeldUp(s)
    ensures s.Pc(CALLER) == Calling(RenewLock("ACT", T0)) && s.Pc(OTHER_CHECKER).Idle?
  {
    var a, s1 := TheFirstStart();
    LooksUp(SDK, s1, CHECKER, OLD_LICENSE);
    var b := DueCheck(CHECKER)[..4];
    ExecConcat(SDK, START, a, b);
    es, s := a + b, Exec(SDK, s1, b).value;
  }

  // The spawn fails, the mark goes, and the lock is given back.
  lemma SpawnFails(s: State) returns (es: seq<Event>, s': State)
    requires s.Pc(OTHER_CHECKER).Checking? && s.Pc(OTHER_CHECKER).check.CheckSpawn?
    ensures Exec(SDK, s, es) == Some(s') && Still(es)
    ensures s'.sh == s.sh.(holder := None, renewal := s.sh.renewal.(inFlight := None))
    ensures forall u: Tid :: u != OTHER_CHECKER ==> s'.Pc(u) == s.Pc(u)
  {
    es := [Run(OTHER_CHECKER, SpawnFailed), Run(OTHER_CHECKER, Go)];
    var s1 := Go1(s, es[0]);
    assert Next(SDK, s, es[0]) == Some(s1);
    s' := Go1(s1, es[1]);
    assert Next(SDK, s1, es[1]) == Some(s');
    ExecThrough(SDK, [s, s1, s'], es);
  }

  // Past ten minutes a third `check` takes over, and its thread cannot be spawned.
  lemma TakeoverFails(s: State) returns (es: seq<Event>, s': State)
    requires s.sh == Shared(None, MARKED_IN_FLIGHT, false, Some(CACHED), T2) && s.Pc(OTHER_CHECKER).Idle?
    ensures Exec(SDK, s, es) == Some(s') && Still(es)
    ensures s'.sh == Shared(None, TAKEN_OVER, false, Some(CACHED), T2)
    ensures forall u: Tid :: u != OTHER_CHECKER ==> s'.Pc(u) == s.Pc(u)
  {
    var s1 := Started(s, OTHER_CHECKER);
    CheckReaches(s, OTHER_CHECKER);
    DueCheckIsStill(OTHER_CHECKER);
    es, s' := SpawnFails(s1);
    ExecConcat(SDK, s, DueCheck(OTHER_CHECKER), es);
    es := DueCheck(OTHER_CHECKER) + es;
  }

  // The held-up `check` finds an old time on record, and begins a renewal with its own old reading.
  lemma HeldUpCheckStarts(s: State) returns (es: seq<Event>, s': State)
    requires s.sh == Shared(None, TAKEN_OVER.(lastAttempt := Some(T0)), false, Some(CACHED), T2) && CheckIsHeldUp(s)
    ensures Exec(SDK, s, es) == Some(s') && Still(es)
    ensures s'.Pc(CHECKER) == Checking(CheckSpawn(HELD_UP_VIEW, Job(3, "ACT", T1)))
    ensures s'.Pc(RENEWER) == s.Pc(RENEWER)
  {
    var go := Run(CHECKER, Go);
    var s1 := Go1(s, go);
    assert Next(SDK, s, go) == Some(s1);
    s' := Go1(s1, go);
    assert Next(SDK, s1, go) == Some(s');
    es := [go, go];
    ExecThrough(SDK, [s, s1, s'], es);
  }

  // A run on which the clock never goes back, and two background renewals that started at the same
  // reading are live together.
  lemma TwoLiveRenewals() returns (es: seq<Event>, fs: seq<Event>, s: State)
    ensures Exec(SDK, START, es + [Tick(T2)] + fs) == Some(s) && Forward(es) && Still(fs)
    ensures LiveJob(s.Pc(RENEWER)) == Some(Job(1, "ACT", T1)) && LiveJob(s.Pc(CHECKER)) == Some(Job(3, "ACT", T1))
    ensures !FarApart(s.Pc(RENEWER), s.Pc(CHECKER))
  {
    var s1, s2, s3, b, c;
    es, s1 := AnotherCheckIsHeldUp();
    var late := s1.(sh := s1.sh.(clock := T2), past := s1.past + {T2});
    ExecThrough(SDK, [s1, late], [Tick(T2)]);
    b, s2 := TakeoverFails(late);
    c, s3 := Marks(s2, CALLER, T0);
    fs, s := HeldUpCheckStarts(s3);
    ExecConcat(SDK, START, es, [Tick(T2)]);
    ExecConcat(SDK, late, b, c);
    ExecConcat(SDK, late, b + c, fs);
    fs := b + c + fs;
    ExecConcat(SDK, START, es + [Tick(T2)], fs);
  }
}
