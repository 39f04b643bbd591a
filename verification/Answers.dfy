/** What `check` answers, and what it asks the server to renew, in every run. */
module Answers {
  import opened Wrappers
  import opened Time
  import opened Domain
  import opened Validate
  import opened Protocol
  import opened LockDiscipline
  import opened CacheSafety

  /******* One check on its own *******/

  // What `check` answers when it has read `rec`, its first clock reading is `now` and the flag reads
  // `failed`.
  function AnswerFor(sdk: Sdk, rec: Option<Record>, failed: bool, now: Instant): Answer {
    if rec.None? || sdk.verify(rec.value, now).None? then NotActivated
    else
      var lic := sdk.verify(rec.value, now).value;
      AnswerOf(View(lic, now, ValidateAt(lic, sdk.machineId, now)), failed)
  }

  // The licence that `check` offers for background renewal.
  function Offered(sdk: Sdk, rec: Option<Record>, now: Instant): Option<License> {
    if rec.None? || sdk.verify(rec.value, now).None? || !sdk.Renewable(sdk.verify(rec.value, now).value) then None
    else sdk.verify(rec.value, now)
  }

  // A licence is handed out exactly when the record is accepted: the one it verifies to, and in grace
  // exactly when the last renewal failed, the token is over an hour old, and its deadline is not reached.
  // An expired licence is reported exactly when the record verifies, its fields are in order and its end
  // is past.
  lemma AnswerIff(sdk: Sdk, rec: Record, failed: bool, now: Instant)
    ensures AnswerFor(sdk, Some(rec), failed, now).Licensed? <==> sdk.Accepts(rec, now)
    ensures forall lic, g :: AnswerFor(sdk, Some(rec), failed, now) == Licensed(lic, g) <==>
              && sdk.Accepts(rec, now) && sdk.verify(rec, now) == Some(lic)
              && (g <==> failed && lic.issuedAt + ONE_HOUR < now < lic.issuedAt + lic.gracePeriod)
    ensures AnswerFor(sdk, Some(rec), failed, now) == LicenseExpired <==>
            var lic := sdk.verify(rec, now);
            lic.Some? && WellFormed(lic.value, sdk.machineId) && lic.value.expiresAt < now
  {
  }

  /******* The check a thread is in *******/

  // The steps of a run at which a check loaded its record, read its clock and verified, and read the
  // clock again for the age of the licence; the last two mean something once it has come that far.
  datatype Trail = Trail(load: nat, clock: nat, age: nat)

  // Past its load.
  predicate Loaded(s: State, t: Tid) {
    s.Pc(t).Checking? && !s.Pc(t).check.CheckLoad?
  }

  // In state `j` thread `t` is in the check that loaded its record with step `i`.
  ghost predicate InCheck(ss: seq<State>, es: seq<Event>, i: nat, j: nat, t: Tid) {
    && i < j < |ss| && i < |es|
    && es[i].Run? && es[i].t == t && ss[i].Pc(t) == Checking(CheckLoad)
    && forall k :: i < k <= j ==> Loaded(ss[k], t)
  }

  // Step `m` is the one with which a check reads its clock and verifies the record it loaded.
  predicate ReadsClock(ss: seq<State>, es: seq<Event>, m: nat, t: Tid) {
    && m < |es| && m < |ss| && es[m] == Run(t, Go)
    && ss[m].Pc(t).Checking? && ss[m].Pc(t).check.CheckVerify?
  }

  // Step `a` is the one with which it reads the clock for the age of the licence in `v`.
  predicate ReadsAge(ss: seq<State>, es: seq<Event>, a: nat, t: Tid, v: View) {
    a < |es| && a < |ss| && es[a] == Run(t, Go) && ss[a].Pc(t) == Checking(CheckAge(v))
  }

  // `v` is what the cache content `rec` verifies to at the reading `now`, with its verdict.
  predicate ViewOfRecord(sdk: Sdk, rec: Option<Record>, now: Instant, v: View) {
    && rec.Some? && v.now == now && sdk.verify(rec.value, now) == Some(v.lic)
    && v.verdict == ValidateAt(v.lic, sdk.machineId, now)
  }

  // The view comes from the cache as the load found it, at the reading of the verifying step.
  predicate Seen(sdk: Sdk, ss: seq<State>, es: seq<Event>, tr: Trail, j: nat, t: Tid, v: View) {
    && tr.load < tr.clock < j < |ss| && sdk.cacheOn && ReadsClock(ss, es, tr.clock, t)
    && ViewOfRecord(sdk, ss[tr.load].sh.cache, ss[tr.clock].sh.clock, v)
  }

  // The licence is for this machine, names an activation and a key, and was old enough for renewal at
  // the reading `start` of the ageing step.
  predicate Aged(sdk: Sdk, ss: seq<State>, es: seq<Event>, tr: Trail, j: nat, t: Tid, v: View, start: Instant) {
    && tr.clock < tr.age < j < |ss| && ReadsAge(ss, es, tr.age, t, v) && start == ss[tr.age].sh.clock
    && v.lic.machineId == sdk.machineId && v.lic.activationId != "" && v.lic.key != ""
    && Since(start, v.lic.issuedAt) >= ONE_HOUR
  }

  // What the check has in hand in state `j`, traced back to the steps it comes from.
  predicate Traced(sdk: Sdk, ss: seq<State>, es: seq<Event>, tr: Trail, j: nat, t: Tid)
    requires tr.load < j < |ss| && ss[j].Pc(t).Checking?
  {
    match ss[j].Pc(t).check
    case CheckLoad => false
    case CheckVerify(rec) => sdk.cacheOn && ss[tr.load].sh.cache == Some(rec)
    case CheckAge(v) => Seen(sdk, ss, es, tr, j, t, v) && sdk.Renewable(v.lic)
    case CheckTryLock(v, start) => Seen(sdk, ss, es, tr, j, t, v) && Aged(sdk, ss, es, tr, j, t, v, start)
    case CheckDecide(v, start) => Seen(sdk, ss, es, tr, j, t, v) && Aged(sdk, ss, es, tr, j, t, v, start)
    case CheckSpawn(v, job) =>
      && Seen(sdk, ss, es, tr, j, t, v) && Aged(sdk, ss, es, tr, j, t, v, job.start)
      && job.activation == v.lic.activationId
    case CheckUnlock(v) => Seen(sdk, ss, es, tr, j, t, v)
    case CheckAnswer(v) => Seen(sdk, ss, es, tr, j, t, v)
  }

  lemma {:induction false} TrailKeeps(sdk: Sdk, ss: seq<State>, es: seq<Event>, tr: Trail, j: nat, t: Tid)
    requires tr.load < j && j + 1 < |ss| && Loaded(ss[j], t) && Traced(sdk, ss, es, tr, j, t)
    requires ss[j + 1].Pc(t) == ss[j].Pc(t)
    ensures Traced(sdk, ss, es, tr, j + 1, t)
  {
  }

  // The check's own step: its trail grows when it reads its clock or the age.
  lemma {:induction false} TrailGrows(sdk: Sdk, ss: seq<State>, es: seq<Event>, tr: Trail, j: nat, t: Tid)
    returns (tr': Trail)
    requires tr.load < j < |es| && j + 1 < |ss| && es[j].Run? && es[j].t == t
    requires Loaded(ss[j], t) && Traced(sdk, ss, es, tr, j, t) && Loaded(ss[j + 1], t)
    requires CheckMove(sdk, t, ss[j].Pc(t).check, ss[j].sh, es[j].choice).Move?
    requires ss[j + 1].Pc(t) == CheckMove(sdk, t, ss[j].Pc(t).check, ss[j].sh, es[j].choice).pc
    ensures tr'.load == tr.load && Traced(sdk, ss, es, tr', j + 1, t)
  {
    var c := ss[j].Pc(t).check;
    tr' := if c.CheckVerify? then tr.(clock := j) else if c.CheckAge? then tr.(age := j) else tr;
  }

  lemma {:induction false} JobsStay(sdk: Sdk, t: Tid, b: BackgroundPc, sh: Shared, ch: Choice)
    requires BackgroundMove(sdk, t, b, sh, ch).Move?
    ensures var m := BackgroundMove(sdk, t, b, sh, ch);
            m.child.None? && (m.pc.Renewing? ==> m.pc.bg.job == b.job)
  {
  }

  lemma {:induction false} OnlyChecksSpawn(sdk: Sdk, t: Tid, pc: Pc, sh: Shared, ch: Choice)
    requires ThreadMove(sdk, t, pc, sh, ch).Move?
    ensures var m := ThreadMove(sdk, t, pc, sh, ch);
            && (m.child.Some? ==> pc.Checking? && pc.check.CheckSpawn? && ch.Spawned?
                                  && m.child.value == (ch.child, Renewing(BgPost(pc.check.job))))
            && (m.pc.Renewing? ==> pc.Renewing? && m.pc.bg.job == pc.bg.job)
  {
    match pc
    case Checking(c) =>
    case Calling(c) =>
    case Renewing(b) => JobsStay(sdk, t, b, sh, ch);
    case _ =>
  }

  lemma {:induction false} CheckBegins(sdk: Sdk, s: State, e: Event, t: Tid)
    requires Next(sdk, s, e).Some? && !Loaded(s, t) && Loaded(Next(sdk, s, e).value, t)
    ensures e.Run? && e.t == t && s.Pc(t) == Checking(CheckLoad) && sdk.cacheOn && s.sh.cache.Some?
    ensures Next(sdk, s, e).value.Pc(t) == Checking(CheckVerify(s.sh.cache.value))
  {
    if e.Run? {
      OnlyChecksSpawn(sdk, e.t, s.Pc(e.t), s.sh, e.choice);
      OnlyLoadsLoad(sdk, e.t, s.Pc(e.t), s.sh, e.choice);
    }
  }

  lemma {:induction false} OnlyLoadsLoad(sdk: Sdk, t: Tid, pc: Pc, sh: Shared, ch: Choice)
    requires ThreadMove(sdk, t, pc, sh, ch).Move?
    ensures var pc' := ThreadMove(sdk, t, pc, sh, ch).pc;
            pc'.Checking? && !pc'.check.CheckLoad? && (pc.Checking? ==> pc.check.CheckLoad?) ==>
              && pc == Checking(CheckLoad) && sdk.cacheOn && sh.cache.Some?
              && pc' == Checking(CheckVerify(sh.cache.value))
  {
    match pc
    case Checking(c) =>
    case Calling(c) =>
    case Renewing(b) =>
    case _ =>
  }

  // Every check of a run has its load in that run, and all it has in hand is traced to it.
  lemma {:induction false} CheckHasItsTrail(sdk: Sdk, ss: seq<State>, es: seq<Event>, j: nat, t: Tid)
    returns (tr: Trail)
    requires Behaviour(sdk, ss, es) && j < |ss| && !Loaded(ss[0], t) && Loaded(ss[j], t)
    ensures InCheck(ss, es, tr.load, j, t) && Traced(sdk, ss, es, tr, j, t)
    decreases j
  {
    var s, e := ss[j - 1], es[j - 1];
    assert Next(sdk, s, e) == Some(ss[j]);
    if !Loaded(s, t) {
      CheckBegins(sdk, s, e, t);
      tr := Trail(j - 1, 0, 0);
    } else {
      tr := CheckHasItsTrail(sdk, ss, es, j - 1, t);
      if Involves(e, t) {
        OwnMove(sdk, s, e);
        tr := TrailGrows(sdk, ss, es, tr, j - 1, t);
      } else {
        OthersStay(sdk, s, e, t);
        TrailKeeps(sdk, ss, es, tr, j - 1, t);
      }
    }
  }

  /******* Answers *******/

  // Step `j` is the one with which a check of `t` answers, with a record loaded or without.
  predicate AnswersAt(sdk: Sdk, ss: seq<State>, es: seq<Event>, j: nat, t: Tid, loaded: bool, answer: Answer) {
    && j < |es| && j < |ss| && es[j].Run? && es[j].t == t
    && var m := ThreadMove(sdk, t, ss[j].Pc(t), ss[j].sh, es[j].choice);
       m.Move? && m.entry == Some(Checked(loaded, answer))
  }

  // However its steps interleave with others, a `check` that has loaded a record answers what
  // `AnswerFor` says for the record the cache held at its own load, at the clock reading it took itself
  // between that load and its answer, and for the flag as it is when it answers. One that has loaded
  // nothing answers `NotActivated`.
  lemma {:induction false} ChecksAnswerForTheirLoad(sdk: Sdk, ss: seq<State>, es: seq<Event>, j: nat, t: Tid,
                                                    loaded: bool, answer: Answer)
    returns (tr: Trail)
    requires Behaviour(sdk, ss, es) && Initial(ss[0]) && AnswersAt(sdk, ss, es, j, t, loaded, answer)
    ensures if loaded then
              && InCheck(ss, es, tr.load, j, t) && tr.load < tr.clock <= j && ReadsClock(ss, es, tr.clock, t)
              && sdk.cacheOn && ss[tr.load].sh.cache.Some?
              && answer == AnswerFor(sdk, ss[tr.load].sh.cache, ss[j].sh.failed, ss[tr.clock].sh.clock)
            else
              && ss[j].Pc(t) == Checking(CheckLoad) && es[j].choice.Disk?
              && Load(sdk, ss[j].sh, es[j].choice.works).None? && answer == NotActivated
  {
    tr := Trail(0, 0, 0);
    OnlyChecksAnswer(sdk, t, ss[j].Pc(t), ss[j].sh, es[j].choice);
    if loaded {
      tr := CheckHasItsTrail(sdk, ss, es, j, t);
      if ss[j].Pc(t).check.CheckVerify? {
        tr := tr.(clock := j);
      }
    }
  }

  lemma {:induction false} OnlyChecksAnswer(sdk: Sdk, t: Tid, pc: Pc, sh: Shared, ch: Choice)
    requires ThreadMove(sdk, t, pc, sh, ch).Move?
    ensures var e := ThreadMove(sdk, t, pc, sh, ch).entry;
            e.Some? && e.value.Checked? ==>
              pc.Checking? && (e.value.loaded <==> !pc.check.CheckLoad?)
  {
    match pc
    case Checking(c) =>
    case Calling(c) =>
    case Renewing(b) =>
    case _ =>
  }

  lemma {:induction false} PrefixOfRun(sdk: Sdk, ss: seq<State>, es: seq<Event>, j: nat)
    requires Behaviour(sdk, ss, es) && j < |ss|
    ensures Exec(sdk, ss[0], es[..j]) == Some(ss[j])
  {
    forall k | 0 <= k < j ensures Next(sdk, ss[..j + 1][k], es[..j][k]) == Some(ss[..j + 1][k + 1]) {
      assert Next(sdk, ss[k], es[k]) == Some(ss[k + 1]);
    }
    BehavioursAreRuns(sdk, ss[..j + 1], es[..j]);
  }

  // A licence a `check` of a run hands out is in grace exactly when, in the state where it answers, the last
  // recorded outcome is a renewal that did not reach the server while its activation was held, with no save
  // or clear since; and the reading the check took lies past the token's first hour and before its deadline.
  lemma {:induction false} GraceTellsAFailure(sdk: Sdk, ss: seq<State>, es: seq<Event>, j: nat, t: Tid, lic: License,
                                              inGrace: bool)
    returns (tr: Trail)
    requires Behaviour(sdk, ss, es) && Initial(ss[0])
    requires AnswersAt(sdk, ss, es, j, t, true, Licensed(lic, inGrace))
    ensures InCheck(ss, es, tr.load, j, t) && tr.load < tr.clock <= j && ReadsClock(ss, es, tr.clock, t)
    ensures var at := ss[tr.clock].sh.clock;
            && ss[tr.load].sh.cache.Some? && sdk.verify(ss[tr.load].sh.cache.value, at) == Some(lic)
            && (inGrace <==> FlagCause(ss[j].hist).Some?
                             && lic.issuedAt + ONE_HOUR < at < lic.issuedAt + lic.gracePeriod)
            && (inGrace ==> CauseHolds(sdk, ss[j].sh, ss[j].past, FlagCause(ss[j].hist).value))
  {
    tr := ChecksAnswerForTheirLoad(sdk, ss, es, j, t, true, Licensed(lic, inGrace));
    AnswerIff(sdk, ss[tr.load].sh.cache.value, ss[j].sh.failed, ss[tr.clock].sh.clock);
    PrefixOfRun(sdk, ss, es, j);
    FlagTellsTheLastOutcome(sdk, ss[0], es[..j]);
  }

  /******* Renewals *******/

  // In state `j` thread `u` runs a renewal that the check of `t` with trail `tr` started with step `k`.
  ghost predicate StartedBy(sdk: Sdk, ss: seq<State>, es: seq<Event>, tr: Trail, k: nat, j: nat, t: Tid, u: Tid)
    requires j < |ss| && ss[j].Pc(u).Renewing?
  {
    var job := ss[j].Pc(u).bg.job;
    && k < j && k < |es| && es[k] == Run(t, Spawned(u)) && InCheck(ss, es, tr.load, k, t)
    && exists v :: Seen(sdk, ss, es, tr, k, t, v) && Aged(sdk, ss, es, tr, k, t, v, job.start)
                   && job.activation == v.lic.activationId
  }

  // Every background renewal of a run was started by a `check`, for the activation of the licence that
  // the cache content at that check's load verified to at its own clock reading: a licence for this
  // machine, with an activation and a key, an hour old at the reading the renewal is numbered with.
  lemma {:induction false} RenewalsAreWarranted(sdk: Sdk, ss: seq<State>, es: seq<Event>, j: nat, u: Tid)
    returns (tr: Trail, k: nat, t: Tid)
    requires Behaviour(sdk, ss, es) && Initial(ss[0]) && j < |ss| && ss[j].Pc(u).Renewing?
    ensures StartedBy(sdk, ss, es, tr, k, j, t, u)
    decreases j
  {
    var e := es[j - 1];
    assert Next(sdk, ss[j - 1], e) == Some(ss[j]);
    if e.Run? {
      OnlyChecksSpawn(sdk, e.t, ss[j - 1].Pc(e.t), ss[j - 1].sh, e.choice);
    }
    if ss[j - 1].Pc(u).Renewing? {
      tr, k, t := RenewalsAreWarranted(sdk, ss, es, j - 1, u);
    } else {
      k, t := j - 1, e.t;
      tr := CheckHasItsTrail(sdk, ss, es, k, t);
      var v := ss[k].Pc(t).check.view;
      assert Seen(sdk, ss, es, tr, k, t, v);
    }
  }
}
