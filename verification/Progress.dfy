/** Why nothing gets stuck: critical sections end, `check` never waits, and a stuck renewal does not
    keep later ones from starting. */
module Progress {
  import opened Wrappers
  import opened Time
  import opened Domain
  import opened Validate
  import opened Protocol
  import opened LockDiscipline

  // How many steps the thread still has to take inside its critical section.
  function StepsToRelease(pc: Pc): nat {
    match pc
    case Checking(c) =>
      (match c
       case CheckDecide(_, _) => 3
       case CheckSpawn(_, _) => 2
       case CheckUnlock(_) => 1
       case _ => 0)
    case Calling(c) =>
      (match c
       case RenewMark(_, _) => 2
       case RenewUnlock(_) => 1
       case NoteRead(_, _) => 4
       case NoteVerify(_, _, _) => 3
       case NoteStore(_, _, _) => 2
       case NoteUnlock(_) => 1
       case WriteFlag(_, _) => 3
       case WriteDisk(_, _) => 2
       case WriteUnlock(_) => 1
       case _ => 0)
    case Renewing(b) =>
      (match b
       case BgOwn(_, _) => 6
       case BgRead(_, _) => 5
       case BgVerify(_, _, _) => 4
       case BgStore(_, _, _) => 3
       case BgDisk(_, _, _) => 2
       case BgUnlock(_) => 1
       case BgDrop(_) => 2
       case BgDropUnlock(_) => 1
       case _ => 0)
    case _ => 0
  }

  // How many steps `check` takes at most until it returns.
  function StepsToAnswer(c: CheckPc): nat {
    match c
    case CheckLoad => 8
    case CheckVerify(_) => 7
    case CheckAge(_) => 6
    case CheckTryLock(_, _) => 5
    case CheckDecide(_, _) => 4
    case CheckSpawn(_, _) => 3
    case CheckUnlock(_) => 2
    case CheckAnswer(_) => 1
  }

  // A choice with which a thread that is not waiting can always move.
  function SomeChoice(pc: Pc): Choice {
    match pc
    case Idle => Invoke(Check)
    case Checking(c) => if c.CheckLoad? then Disk(true) else if c.CheckSpawn? then SpawnFailed else Go
    case Calling(c) =>
      if c.ActivateLoad? || c.NoteRead? || c.WriteDisk? then Disk(true)
      else if c.ActivatePost? || c.RenewPost? || c.DeactivatePost? then Receive(OtherError)
      else Go
    case Renewing(b) => if b.BgRead? || b.BgDisk? then Disk(true) else if b.BgPost? then Receive(OtherError) else Go
    case Gone => Go
  }

  // Only the five blocking lock requests can keep a thread from moving, and only while the lock is
  // taken. `check` has none of them.
  lemma OnlyTheLockBlocks(sdk: Sdk, t: Tid, pc: Pc, sh: Shared)
    requires !pc.Gone?
    requires WaitsForLock(pc) ==> sh.holder.None?
    ensures ThreadMove(sdk, t, pc, sh, SomeChoice(pc)).Move?
    ensures ThreadMove(sdk, t, pc, sh, SomeChoice(pc)).child.None?
  {
    match pc
    case Checking(c) =>
    case Calling(c) =>
    case Renewing(b) =>
    case _ =>
  }

  // Whatever the environment chooses, each step of a critical section brings its end closer, and the
  // count reaches zero exactly when the lock is given back.
  lemma CriticalStepsCountDown(sdk: Sdk, t: Tid, pc: Pc, sh: Shared, ch: Choice)
    requires HoldsLock(pc) && sh.holder == Some(t)
    requires ThreadMove(sdk, t, pc, sh, ch).Move?
    ensures var m := ThreadMove(sdk, t, pc, sh, ch);
            && StepsToRelease(m.pc) < StepsToRelease(pc)
            && (StepsToRelease(m.pc) == 0 <==> m.sh.holder.None?)
  {
    match pc
    case Checking(c) =>
    case Calling(c) =>
    case Renewing(b) =>
    case _ =>
  }

  // From any state of any run the lock is free after at most six steps of its holder alone.
  lemma {:induction false} TheLockIsGivenBack(sdk: Sdk, s: State, t: Tid) returns (es: seq<Event>)
    requires LockInv(s) && s.sh.holder == Some(t)
    ensures |es| <= StepsToRelease(s.Pc(t)) <= 6
    ensures forall e :: e in es ==> Involves(e, t)
    ensures Exec(sdk, s, es).Some? && Exec(sdk, s, es).value.sh.holder.None?
    decreases StepsToRelease(s.Pc(t))
  {
    var pc := s.Pc(t);
    assert HoldsLock(pc);
    var e := Run(t, SomeChoice(pc));
    OnlyTheLockBlocks(sdk, t, pc, s.sh);
    CriticalStepsCountDown(sdk, t, pc, s.sh, SomeChoice(pc));
    MoveDiscipline(sdk, t, pc, s.sh, SomeChoice(pc));
    NextKeepsLockInv(sdk, s, e);
    var s' := Next(sdk, s, e).value;
    if s'.sh.holder.None? {
      es := [e];
      assert Exec(sdk, s, es) == Exec(sdk, s', es[1..]) == Some(s');
    } else {
      var rest := TheLockIsGivenBack(sdk, s', t);
      es := [e] + rest;
      assert es[1..] == rest;
    }
  }

  // No state of any run is a deadlock: while some thread has work left, some thread that has work
  // left can take a step.
  lemma DeadlockFreedom(sdk: Sdk, s: State, t: Tid) returns (u: Tid)
    requires LockInv(s) && !s.Pc(t).Idle? && !s.Pc(t).Gone?
    ensures !s.Pc(u).Idle? && !s.Pc(u).Gone?
    ensures Next(sdk, s, Run(u, SomeChoice(s.Pc(u)))).Some?
  {
    u := if s.sh.holder.Some? then s.sh.holder.value else t;
    assert HoldsLock(s.Pc(u)) <==> s.sh.holder == Some(u);
    OnlyTheLockBlocks(sdk, u, s.Pc(u), s.sh);
  }

  // `check` never waits: in every state, whoever holds the lock, it can take its next step; each of
  // its steps, under any choice, brings its answer closer; and nothing others do sets it back.
  lemma CheckNeverWaits(sdk: Sdk, s: State, t: Tid, e: Event)
    requires s.Pc(t).Checking?
    ensures Next(sdk, s, Run(t, SomeChoice(s.Pc(t)))).Some?
    ensures Next(sdk, s, e).Some? ==>
              var pc' := Next(sdk, s, e).value.Pc(t);
              if Involves(e, t)
              then pc' == Idle || (pc'.Checking? && StepsToAnswer(pc'.check) < StepsToAnswer(s.Pc(t).check))
              else pc' == s.Pc(t)
  {
    OnlyTheLockBlocks(sdk, t, s.Pc(t), s.sh);
  }

  /******* Recovery *******/

  // The steps of a `check` that finds a renewal due, up to the point where it spawns it.
  function DueCheck(t: Tid): seq<Event> {
    [Run(t, Invoke(Check)), Run(t, Disk(true)), Run(t, Go), Run(t, Go), Run(t, Go), Run(t, Go)]
  }

  ghost predicate RenewableRecord(sdk: Sdk, s: State, lic: License) {
    && sdk.cacheOn && s.sh.cache.Some?
    && sdk.verify(s.sh.cache.value, s.sh.clock) == Some(lic)
    && lic.machineId == sdk.machineId && lic.activationId != "" && lic.key != ""
    && Since(s.sh.clock, lic.issuedAt) >= ONE_HOUR
  }

  function ViewOf(sdk: Sdk, s: State, lic: License): View {
    View(lic, s.sh.clock, ValidateAt(lic, sdk.machineId, s.sh.clock))
  }

  // `s` after a step that moved `t` to `pc` and left the shared state as `sh`.
  function After1(s: State, t: Tid, pc: Pc, sh: Shared, e: Option<Entry>): State {
    State(sh, s.threads[t := pc], s.past, Noting(s.hist, e))
  }

  lemma ExecOne(sdk: Sdk, s: State, e: Event, es: seq<Event>)
    requires Next(sdk, s, e).Some?
    ensures Exec(sdk, s, [e] + es) == Exec(sdk, Next(sdk, s, e).value, es)
  {
    assert ([e] + es)[1..] == es;
  }

  lemma {:induction false} ExecConcat(sdk: Sdk, s: State, es: seq<Event>, fs: seq<Event>)
    requires Exec(sdk, s, es).Some?
    ensures Exec(sdk, s, es + fs) == Exec(sdk, Exec(sdk, s, es).value, fs)
    decreases |es|
  {
    if es == [] {
      assert es + fs == fs;
    } else {
      ExecConcat(sdk, Next(sdk, s, es[0]).value, es[1..], fs);
      assert (es + fs)[1..] == es[1..] + fs;
    }
  }

  // A step of `t` to `pc` and `sh` that logs `e`, followed by a run of other steps.
  lemma Step(sdk: Sdk, s: State, t: Tid, ch: Choice, pc: Pc, sh: Shared, e: Option<Entry>, es: seq<Event>)
    requires ThreadMove(sdk, t, s.Pc(t), s.sh, ch) == Move(pc, sh, None, e)
    ensures Exec(sdk, s, [Run(t, ch)] + es) == Exec(sdk, After1(s, t, pc, sh, e), es)
  {
    ExecOne(sdk, s, Run(t, ch), es);
  }

  lemma Overwrite(s: State, t: Tid, pc: Pc, sh: Shared, e: Option<Entry>, pc': Pc, sh': Shared, e': Option<Entry>)
    requires e.None?
    ensures After1(After1(s, t, pc, sh, e), t, pc', sh', e') == After1(s, t, pc', sh', e')
  {
    assert s.threads[t := pc][t := pc'] == s.threads[t := pc'];
  }

  // `check` reads and verifies a record that is old enough.
  lemma LooksUp(sdk: Sdk, s: State, t: Tid, lic: License)
    requires s.Pc(t).Idle? && RenewableRecord(sdk, s, lic)
    ensures Exec(sdk, s, DueCheck(t)[..4])
            == Some(After1(s, t, Checking(CheckTryLock(ViewOf(sdk, s, lic), s.sh.clock)), s.sh, None))
  {
    var view := ViewOf(sdk, s, lic);
    var p1, p2 := Checking(CheckLoad), Checking(CheckVerify(s.sh.cache.value));
    var p3, p4 := Checking(CheckAge(view)), Checking(CheckTryLock(view, s.sh.clock));
    var go := Run(t, Go);
    Step(sdk, s, t, Invoke(Check), p1, s.sh, None, [Run(t, Disk(true)), go, go]);
    var s1 := After1(s, t, p1, s.sh, None);
    Step(sdk, s1, t, Disk(true), p2, s.sh, None, [go, go]);
    Overwrite(s, t, p1, s.sh, None, p2, s.sh, None);
    var s2 := After1(s, t, p2, s.sh, None);
    Step(sdk, s2, t, Go, p3, s.sh, None, [go]);
    Overwrite(s, t, p2, s.sh, None, p3, s.sh, None);
    Step(sdk, After1(s, t, p3, s.sh, None), t, Go, p4, s.sh, None, []);
    Overwrite(s, t, p3, s.sh, None, p4, s.sh, None);
    assert DueCheck(t)[..4] == [Run(t, Invoke(Check))] + [Run(t, Disk(true)), go, go];
    assert [Run(t, Disk(true)), go, go] == [Run(t, Disk(true))] + [go, go];
    assert [go, go] == [go] + [go] && [go] == [go] + [];
  }

  lemma DueCheckStarts(sdk: Sdk, s: State, t: Tid, lic: License)
    requires s.Pc(t).Idle? && s.sh.holder.None?
    requires RenewableRecord(sdk, s, lic) && Due(s.sh.renewal, s.sh.clock)
    ensures var job := Job(s.sh.renewal.attempt + 1, lic.activationId, s.sh.clock);
            Exec(sdk, s, DueCheck(t))
            == Some(After1(s, t, Checking(CheckSpawn(ViewOf(sdk, s, lic), job)),
                           s.sh.(holder := Some(t), renewal := Begin(s.sh.renewal, s.sh.clock)),
                           Some(Began(job.attempt, job.start))))
  {
    LooksUp(sdk, s, t, lic);
    var view, now := ViewOf(sdk, s, lic), s.sh.clock;
    var p4, p5 := Checking(CheckTryLock(view, now)), Checking(CheckDecide(view, now));
    var job := Job(s.sh.renewal.attempt + 1, lic.activationId, now);
    var sh5 := s.sh.(holder := Some(t));
    var go := Run(t, Go);
    ExecConcat(sdk, s, DueCheck(t)[..4], [go, go]);
    assert DueCheck(t) == DueCheck(t)[..4] + [go, go];
    Step(sdk, After1(s, t, p4, s.sh, None), t, Go, p5, sh5, None, [go]);
    Overwrite(s, t, p4, s.sh, None, p5, sh5, None);
    var p6, sh6 := Checking(CheckSpawn(view, job)), sh5.(renewal := Begin(s.sh.renewal, now));
    Step(sdk, After1(s, t, p5, sh5, None), t, Go, p6, sh6, Some(Began(job.attempt, now)), []);
    Overwrite(s, t, p5, sh5, None, p6, sh6, Some(Began(job.attempt, now)));
    assert [go, go] == [go] + [go] && [go] == [go] + [];
  }

  // Recovery: once the lock is free and the clock is more than ten minutes past every time on record,
  // the next `check` of an idle thread attempts a new renewal of a cached token that verifies, is for
  // this machine, names an activation and a key and is an hour old. It does so even if no earlier
  // renewal ever ends, and even if the verdict on the token is an error.
  lemma Recovery(sdk: Sdk, s: State, t: Tid, lic: License)
    requires s.Pc(t).Idle? && s.sh.holder.None? && RenewableRecord(sdk, s, lic)
    requires s.sh.renewal.inFlight.Some? ==> s.sh.renewal.inFlight.value + TEN_MINUTES < s.sh.clock
    requires s.sh.renewal.lastAttempt.Some? ==> s.sh.renewal.lastAttempt.value + TEN_MINUTES < s.sh.clock
    ensures Exec(sdk, s, DueCheck(t)).Some?
    ensures var s' := Exec(sdk, s, DueCheck(t)).value;
            && s'.sh.renewal.attempt == s.sh.renewal.attempt + 1
            && s'.hist == Then(s.hist, Began(s'.sh.renewal.attempt, s.sh.clock))
            && forall child: Tid :: child != t && child !in s'.threads ==>
                 var s'' := Next(sdk, s', Run(t, Spawned(child)));
                 && s''.Some?
                 && s''.value.Pc(child)
                    == Renewing(BgPost(Job(s'.sh.renewal.attempt, lic.activationId, s.sh.clock)))
  {
    DueCheckStarts(sdk, s, t, lic);
  }

  /******* Recovery while others run *******/

  // Step `n` is the next step of `t` after its step `m`.
  ghost predicate NextOwnStep(es: seq<Event>, t: Tid, m: nat, n: nat) {
    m < n < |es| && es[n] == Run(t, Go) && forall k :: m < k < n ==> !Involves(es[k], t)
  }

  lemma {:induction false} WaitsWhereItIs(sdk: Sdk, ss: seq<State>, es: seq<Event>, i: nat, j: nat, t: Tid)
    requires Behaviour(sdk, ss, es) && i <= j < |ss| && ss[i].Pc(t).Checking?
    requires forall k :: i <= k < j ==> !Involves(es[k], t)
    ensures ss[j].Pc(t) == ss[i].Pc(t)
    decreases j
  {
    if i == j {
    } else {
      WaitsWhereItIs(sdk, ss, es, i, j - 1, t);
      assert Next(sdk, ss[j - 1], es[j - 1]) == Some(ss[j]) && !Involves(es[j - 1], t);
      OthersStay(sdk, ss[j - 1], es[j - 1], t);
    }
  }

  // A check's own step, from where it stood after its previous one.
  lemma {:induction false} OwnStepFrom(sdk: Sdk, ss: seq<State>, es: seq<Event>, m: nat, n: nat, t: Tid, c: CheckPc)
    requires Behaviour(sdk, ss, es) && NextOwnStep(es, t, m, n) && ss[m + 1].Pc(t) == Checking(c)
    ensures ss[n].Pc(t) == Checking(c) && CheckMove(sdk, t, c, ss[n].sh, Go).Move?
    ensures ss[n + 1].Pc(t) == CheckMove(sdk, t, c, ss[n].sh, Go).pc
    ensures ss[n + 1].sh == CheckMove(sdk, t, c, ss[n].sh, Go).sh
    ensures ss[n + 1].hist == Noting(ss[n].hist, CheckMove(sdk, t, c, ss[n].sh, Go).entry)
  {
    WaitsWhereItIs(sdk, ss, es, m + 1, n, t);
    assert Next(sdk, ss[n], es[n]) == Some(ss[n + 1]);
  }

  // A check that loads with step `i`, verifies with `m` and reads the age with `a`, others stepping in
  // between as they like, asks for the lock next, if what it found is to be renewed.
  lemma {:induction false} ChecksComeToTheLock(sdk: Sdk, ss: seq<State>, es: seq<Event>, t: Tid, i: nat, m: nat, a: nat,
                                               lic: License)
    returns (view: View)
    requires Behaviour(sdk, ss, es) && sdk.cacheOn && i < |es|
    requires ss[i].Pc(t) == Checking(CheckLoad) && es[i] == Run(t, Disk(true)) && ss[i].sh.cache.Some?
    requires NextOwnStep(es, t, i, m) && NextOwnStep(es, t, m, a)
    requires sdk.verify(ss[i].sh.cache.value, ss[m].sh.clock) == Some(lic) && sdk.Renewable(lic)
    requires Since(ss[a].sh.clock, lic.issuedAt) >= ONE_HOUR
    ensures view.lic == lic && ss[a + 1].Pc(t) == Checking(CheckTryLock(view, ss[a].sh.clock))
  {
    var rec := ss[i].sh.cache.value;
    assert Next(sdk, ss[i], es[i]) == Some(ss[i + 1]);
    OwnStepFrom(sdk, ss, es, i, m, t, CheckVerify(rec));
    view := View(lic, ss[m].sh.clock, ValidateAt(lic, sdk.machineId, ss[m].sh.clock));
    OwnStepFrom(sdk, ss, es, m, a, t, CheckAge(view));
  }

  // One that asks for the lock while it is free and a renewal is due begins it with its next step.
  lemma {:induction false} DueChecksBegin(sdk: Sdk, ss: seq<State>, es: seq<Event>, t: Tid, a: nat, k: nat, n: nat,
                                          view: View, start: Instant)
    requires Behaviour(sdk, ss, es) && LockInv(ss[0]) && NextOwnStep(es, t, a, k) && NextOwnStep(es, t, k, n)
    requires ss[a + 1].Pc(t) == Checking(CheckTryLock(view, start))
    requires ss[k].sh.holder.None? && Due(ss[k].sh.renewal, start)
    ensures var r := ss[k].sh.renewal;
            && ss[n + 1].sh.renewal == Begin(r, start)
            && ss[n + 1].hist == Then(ss[n].hist, Began(r.attempt + 1, start))
            && ss[n + 1].Pc(t) == Checking(CheckSpawn(view, Job(r.attempt + 1, view.lic.activationId, start)))
  {
    OwnStepFrom(sdk, ss, es, a, k, t, CheckTryLock(view, start));
    NothingSlipsBetween(sdk, ss, es, k + 1, n, t);
    OwnStepFrom(sdk, ss, es, k, n, t, CheckDecide(view, start));
  }

  // Recovery under any interleaving: such a check, if the lock is free when it asks for it with step `k`
  // and every time then on record lies more than ten minutes before its reading of the age, begins a
  // new renewal with its next step, whatever its verdict and whatever became of earlier renewals.
  lemma {:induction false} RecoveryWhileOthersRun(sdk: Sdk, ss: seq<State>, es: seq<Event>, t: Tid, i: nat, m: nat,
                                                  a: nat, k: nat, n: nat, lic: License)
    requires Behaviour(sdk, ss, es) && LockInv(ss[0]) && sdk.cacheOn && i < |es|
    requires ss[i].Pc(t) == Checking(CheckLoad) && es[i] == Run(t, Disk(true)) && ss[i].sh.cache.Some?
    requires NextOwnStep(es, t, i, m) && NextOwnStep(es, t, m, a)
    requires NextOwnStep(es, t, a, k) && NextOwnStep(es, t, k, n)
    requires sdk.verify(ss[i].sh.cache.value, ss[m].sh.clock) == Some(lic) && sdk.Renewable(lic)
    requires Since(ss[a].sh.clock, lic.issuedAt) >= ONE_HOUR
    requires ss[k].sh.holder.None?
    requires var r, now := ss[k].sh.renewal, ss[a].sh.clock;
             && (r.inFlight.Some? ==> r.inFlight.value + TEN_MINUTES < now)
             && (r.lastAttempt.Some? ==> r.lastAttempt.value + TEN_MINUTES < now)
    ensures var r, start := ss[k].sh.renewal, ss[a].sh.clock;
            && ss[n + 1].sh.renewal == Begin(r, start)
            && ss[n + 1].hist == Then(ss[n].hist, Began(r.attempt + 1, start))
            && ss[n + 1].Pc(t).Checking? && ss[n + 1].Pc(t).check.CheckSpawn?
            && ss[n + 1].Pc(t).check.job == Job(r.attempt + 1, lic.activationId, start)
  {
    var view := ChecksComeToTheLock(sdk, ss, es, t, i, m, a, lic);
    var start := ss[a].sh.clock;
    DueChecksBegin(sdk, ss, es, t, a, k, n, view, start);
  }
}
