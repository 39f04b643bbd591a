/** Who owns the in-flight mark, and whose outcomes are recorded. */
module Ownership {
  import opened Wrappers
  import opened Time
  import Domain
  import opened Protocol
  import opened LockDiscipline
  import opened CacheSafety

  // The background renewal a thread stands for: from the moment `check` has numbered it until its
  // `InFlight` has been dropped.
  function LiveJob(pc: Pc): Option<Job> {
    match pc
    case Checking(CheckSpawn(_, job)) => Some(job)
    case Renewing(b) => if b.BgDropUnlock? then None else Some(b.job)
    case _ => None
  }

  // Every live renewal has a number already given out; the newest one is marked with its start.
  predicate Numbered(r: Renewal, pc: Pc) {
    LiveJob(pc).Some? ==>
      var job := LiveJob(pc).value;
      && 1 <= job.attempt <= r.attempt
      && (job.attempt == r.attempt ==> r.inFlight == Some(job.start))
      && (pc.Checking? ==> job.attempt == r.attempt)
  }

  predicate Owner(r: Renewal, pc: Pc) {
    LiveJob(pc).Some? && LiveJob(pc).value.attempt == r.attempt
  }

  predicate Apart(p: Pc, q: Pc) {
    LiveJob(p).Some? && LiveJob(q).Some? ==> LiveJob(p).value.attempt != LiveJob(q).value.attempt
  }

  ghost predicate OwnershipInv(s: State) {
    && (forall t: Tid :: Numbered(s.sh.renewal, s.Pc(t)))
    && (forall t: Tid, u: Tid :: t != u ==> Apart(s.Pc(t), s.Pc(u)))
    && (s.sh.renewal.inFlight.Some? ==> exists t: Tid :: Owner(s.sh.renewal, s.Pc(t)))
  }

  // The only ways a step can touch live renewals or the mark.
  datatype JobMove = Quiet | Begins | Spawns | SpawnFails | Drops

  ghost predicate Fits(k: JobMove, pc: Pc, sh: Shared, m: Move)
    requires m.Move?
  {
    match k
    case Quiet =>
      && LiveJob(m.pc) == LiveJob(pc) && m.child.None? && (m.pc.Checking? && LiveJob(m.pc).Some? ==> m.pc == pc)
      && m.sh.renewal == sh.renewal.(lastAttempt := m.sh.renewal.lastAttempt)
    case Begins =>
      && LiveJob(pc).None? && LiveJob(m.pc).Some? && m.child.None?
      && LiveJob(m.pc).value.attempt == sh.renewal.attempt + 1
      && Due(sh.renewal, LiveJob(m.pc).value.start)
      && m.sh.renewal == Begin(sh.renewal, LiveJob(m.pc).value.start)
    case Spawns =>
      && pc.Checking? && LiveJob(pc).Some? && LiveJob(m.pc).None? && m.sh.renewal == sh.renewal
      && m.child.Some? && m.child.value.1.Renewing? && LiveJob(m.child.value.1) == LiveJob(pc)
    case SpawnFails =>
      && pc.Checking? && LiveJob(pc).Some? && LiveJob(m.pc).None? && m.child.None?
      && m.sh.renewal == sh.renewal.(inFlight := None)
    case Drops =>
      && LiveJob(pc).Some? && LiveJob(m.pc).None? && m.child.None?
      && m.sh.renewal == Finish(sh.renewal, LiveJob(pc).value.attempt)
  }

  function KindOf(pc: Pc, sh: Shared, ch: Choice): JobMove {
    match pc
    case Checking(CheckDecide(_, start)) => if Due(sh.renewal, start) then Begins else Quiet
    case Checking(CheckSpawn(_, _)) => if ch.SpawnFailed? then SpawnFails else Spawns
    case Renewing(BgDrop(_)) => Drops
    case _ => Quiet
  }

  lemma CheckKind(sdk: Sdk, t: Tid, c: CheckPc, sh: Shared, ch: Choice)
    requires CheckMove(sdk, t, c, sh, ch).Move?
    ensures Fits(KindOf(Checking(c), sh, ch), Checking(c), sh, CheckMove(sdk, t, c, sh, ch))
  {
  }

  lemma CallKind(sdk: Sdk, t: Tid, c: CallPc, sh: Shared, ch: Choice)
    requires ThreadMove(sdk, t, Calling(c), sh, ch).Move?
    ensures Fits(Quiet, Calling(c), sh, ThreadMove(sdk, t, Calling(c), sh, ch))
  {
  }

  lemma BackgroundKind(sdk: Sdk, t: Tid, b: BackgroundPc, sh: Shared, ch: Choice)
    requires BackgroundMove(sdk, t, b, sh, ch).Move?
    ensures Fits(KindOf(Renewing(b), sh, ch), Renewing(b), sh, BackgroundMove(sdk, t, b, sh, ch))
  {
  }

  lemma MoveKind(sdk: Sdk, t: Tid, pc: Pc, sh: Shared, ch: Choice)
    requires ThreadMove(sdk, t, pc, sh, ch).Move?
    ensures Fits(KindOf(pc, sh, ch), pc, sh, ThreadMove(sdk, t, pc, sh, ch))
  {
    match pc
    case Checking(c) => CheckKind(sdk, t, c, sh, ch);
    case Calling(c) => CallKind(sdk, t, c, sh, ch);
    case Renewing(b) => BackgroundKind(sdk, t, b, sh, ch);
    case _ =>
  }

  lemma NextKeepsNumbering(sdk: Sdk, s: State, t: Tid, ch: Choice)
    requires LockInv(s) && OwnershipInv(s) && Next(sdk, s, Run(t, ch)).Some?
    ensures var s' := Next(sdk, s, Run(t, ch)).value; forall u: Tid :: Numbered(s'.sh.renewal, s'.Pc(u))
  {
    var s' := Next(sdk, s, Run(t, ch)).value;
    MoveKind(sdk, t, s.Pc(t), s.sh, ch);
    assert Numbered(s.sh.renewal, s.Pc(t));
    assert HoldsLock(s.Pc(t)) <==> s.sh.holder == Some(t);
    forall u: Tid ensures Numbered(s'.sh.renewal, s'.Pc(u)) {
      assert Numbered(s.sh.renewal, s.Pc(u));
      assert HoldsLock(s.Pc(u)) <==> s.sh.holder == Some(u);
      assert u != t ==> Apart(s.Pc(t), s.Pc(u));
    }
  }

  lemma NextKeepsNumbersApart(sdk: Sdk, s: State, t: Tid, ch: Choice)
    requires OwnershipInv(s) && Next(sdk, s, Run(t, ch)).Some?
    ensures var s' := Next(sdk, s, Run(t, ch)).value; forall u: Tid, v: Tid :: u != v ==> Apart(s'.Pc(u), s'.Pc(v))
  {
    var s' := Next(sdk, s, Run(t, ch)).value;
    MoveKind(sdk, t, s.Pc(t), s.sh, ch);
    forall u: Tid, v: Tid | u != v ensures Apart(s'.Pc(u), s'.Pc(v)) {
      assert Apart(s.Pc(u), s.Pc(v)) && (u != t ==> Apart(s.Pc(u), s.Pc(t))) && (v != t ==> Apart(s.Pc(t), s.Pc(v)));
      assert Numbered(s.sh.renewal, s.Pc(u)) && Numbered(s.sh.renewal, s.Pc(v));
    }
  }

  lemma NextKeepsAnOwner(sdk: Sdk, s: State, t: Tid, ch: Choice)
    requires OwnershipInv(s) && Next(sdk, s, Run(t, ch)).Some?
    ensures var s' := Next(sdk, s, Run(t, ch)).value;
            s'.sh.renewal.inFlight.Some? ==> exists o: Tid :: Owner(s'.sh.renewal, s'.Pc(o))
  {
    var s' := Next(sdk, s, Run(t, ch)).value;
    var m := ThreadMove(sdk, t, s.Pc(t), s.sh, ch);
    MoveKind(sdk, t, s.Pc(t), s.sh, ch);
    if s'.sh.renewal.inFlight.Some? {
      var k := KindOf(s.Pc(t), s.sh, ch);
      if k == Begins {
        assert Owner(s'.sh.renewal, s'.Pc(t));
      } else {
        var o: Tid :| Owner(s.sh.renewal, s.Pc(o));
        var o' := if k == Spawns && o == t then m.child.value.0 else o;
        assert Owner(s'.sh.renewal, s'.Pc(o'));
      }
    }
  }

  lemma NextKeepsOwnershipInv(sdk: Sdk, s: State, e: Event)
    requires LockInv(s) && OwnershipInv(s) && Next(sdk, s, e).Some?
    ensures OwnershipInv(Next(sdk, s, e).value)
  {
    match e
    case Tick(_) =>
      var s' := Next(sdk, s, e).value;
      assert forall t: Tid :: s'.Pc(t) == s.Pc(t);
      if s.sh.renewal.inFlight.Some? {
        var o: Tid :| Owner(s.sh.renewal, s.Pc(o));
        assert Owner(s'.sh.renewal, s'.Pc(o));
      }
    case Run(t, ch) =>
      NextKeepsNumbering(sdk, s, t, ch);
      NextKeepsNumbersApart(sdk, s, t, ch);
      NextKeepsAnOwner(sdk, s, t, ch);
  }

  /******* Recorded outcomes *******/

  // The number of the background renewal whose outcome was recorded last; 0 for none.
  function LastRecorded(h: History): nat {
    match h
    case Nothing => 0
    case Then(p, Noted(Some(n), _, _, _)) => n
    case Then(p, _) => LastRecorded(p)
  }

  ghost predicate RecordedInOrder(h: History) {
    match h
    case Nothing => true
    case Then(p, Noted(Some(n), _, _, _)) => RecordedInOrder(p) && LastRecorded(p) < n
    case Then(p, _) => RecordedInOrder(p)
  }

  // A live renewal whose outcome has not been recorded.
  predicate Unrecorded(pc: Pc) {
    match pc
    case Checking(c) => c.CheckSpawn?
    case Renewing(b) =>
      b.BgPost? || b.BgAccept? || b.BgLock? || b.BgOwn? || b.BgRead? || b.BgVerify? || b.BgStore?
    case _ => false
  }

  predicate NotYet(r: Renewal, h: History, pc: Pc) {
    Unrecorded(pc) && LiveJob(pc).value.attempt == r.attempt ==> LastRecorded(h) < r.attempt
  }

  ghost predicate RecordInv(s: State) {
    && LastRecorded(s.hist) <= s.sh.renewal.attempt
    && RecordedInOrder(s.hist)
    && forall t: Tid :: NotYet(s.sh.renewal, s.hist, s.Pc(t))
  }

  lemma MoveRecords(sdk: Sdk, t: Tid, pc: Pc, sh: Shared, past: set<Instant>, h: History, ch: Choice)
    requires ThreadMove(sdk, t, pc, sh, ch).Move? && Knows(sdk, sh, past, pc)
    ensures var m := ThreadMove(sdk, t, pc, sh, ch);
            || (LastRecorded(Noting(h, m.entry)) == LastRecorded(h)
                && RecordedInOrder(Noting(h, m.entry)) == RecordedInOrder(h))
            || (pc.Renewing? && pc.bg.BgStore? && pc.bg.job.attempt == sh.renewal.attempt
                && m.entry == Some(Noted(Some(sh.renewal.attempt), pc.bg.job.activation,
                                         pc.bg.outcome.NoNetwork?, pc.bg.held)))
  {
    OutcomesAreTheRenewalsOwn(sdk, t, pc, sh, ch);
  }

  lemma MoveLeavesUnrecorded(sdk: Sdk, t: Tid, pc: Pc, sh: Shared, ch: Choice)
    requires ThreadMove(sdk, t, pc, sh, ch).Move?
    ensures var m := ThreadMove(sdk, t, pc, sh, ch);
            && (Unrecorded(m.pc) ==> Unrecorded(pc) || KindOf(pc, sh, ch) == Begins)
            && (pc.Renewing? && pc.bg.BgStore? ==> !Unrecorded(m.pc))
  {
    match pc
    case Checking(c) =>
    case Calling(c) =>
    case Renewing(b) =>
    case _ =>
  }

  lemma NextKeepsRecordInv(sdk: Sdk, s: State, e: Event)
    requires OwnershipInv(s) && RecordInv(s) && Next(sdk, s, e).Some?
    requires forall t: Tid :: Knows(sdk, s.sh, s.past, s.Pc(t))
    ensures RecordInv(Next(sdk, s, e).value)
  {
    var s' := Next(sdk, s, e).value;
    match e
    case Tick(_) =>
      assert forall t: Tid :: s'.Pc(t) == s.Pc(t);
    case Run(t, ch) =>
      assert Knows(sdk, s.sh, s.past, s.Pc(t));
      MoveKind(sdk, t, s.Pc(t), s.sh, ch);
      MoveRecords(sdk, t, s.Pc(t), s.sh, s.past, s.hist, ch);
      MoveLeavesUnrecorded(sdk, t, s.Pc(t), s.sh, ch);
      var m := ThreadMove(sdk, t, s.Pc(t), s.sh, ch);
      assert NotYet(s.sh.renewal, s.hist, s.Pc(t)) && Numbered(s.sh.renewal, s.Pc(t));
      forall u: Tid ensures NotYet(s'.sh.renewal, s'.hist, s'.Pc(u)) {
        assert NotYet(s.sh.renewal, s.hist, s.Pc(u)) && Numbered(s.sh.renewal, s.Pc(u));
      }
  }

  lemma {:induction false} ExecKeepsOwnership(sdk: Sdk, initial: Option<Domain.Record>, s: State, es: seq<Event>)
    requires LockInv(s) && CacheInv(sdk, initial, s) && OwnershipInv(s) && RecordInv(s) && Exec(sdk, s, es).Some?
    ensures var s' := Exec(sdk, s, es).value; LockInv(s') && OwnershipInv(s') && RecordInv(s')
    decreases |es|
  {
    if es == [] {
    } else {
      NextKeepsLockInv(sdk, s, es[0]);
      NextKeepsCacheInv(sdk, initial, s, es[0]);
      NextKeepsOwnershipInv(sdk, s, es[0]);
      NextKeepsRecordInv(sdk, s, es[0]);
      ExecKeepsOwnership(sdk, initial, Next(sdk, s, es[0]).value, es[1..]);
    }
  }

  lemma OwnershipHolds(sdk: Sdk, origin: State, es: seq<Event>)
    requires Initial(origin) && Exec(sdk, origin, es).Some?
    ensures var s := Exec(sdk, origin, es).value; LockInv(s) && OwnershipInv(s) && RecordInv(s)
  {
    InitialCacheInv(sdk, origin);
    ExecKeepsOwnership(sdk, origin.sh.cache, origin, es);
  }

  /******* What follows for every run *******/

  // `in_flight` is set, to `start`, exactly while the background renewal numbered `attempt` is live
  // and started then; no two live renewals share a number.
  lemma InFlightIsTheLiveRenewal(sdk: Sdk, origin: State, es: seq<Event>, start: Instant)
    requires Initial(origin) && Exec(sdk, origin, es).Some?
    ensures var s := Exec(sdk, origin, es).value;
            && (s.sh.renewal.inFlight == Some(start) <==>
                  exists t: Tid :: Owner(s.sh.renewal, s.Pc(t)) && LiveJob(s.Pc(t)).value.start == start)
            && (forall t: Tid, u: Tid :: t != u ==> Apart(s.Pc(t), s.Pc(u)))
  {
    OwnershipHolds(sdk, origin, es);
    var s := Exec(sdk, origin, es).value;
    if s.sh.renewal.inFlight == Some(start) {
      var o: Tid :| Owner(s.sh.renewal, s.Pc(o));
      assert Numbered(s.sh.renewal, s.Pc(o));
    }
    forall o: Tid | Owner(s.sh.renewal, s.Pc(o)) ensures s.sh.renewal.inFlight == Some(LiveJob(s.Pc(o)).value.start) {
      assert Numbered(s.sh.renewal, s.Pc(o));
    }
  }

  // The drop of a renewal's `InFlight` removes its own mark or none: while a newer renewal is marked,
  // dropping an older one leaves that mark alone.
  lemma DropsClearOnlyTheirOwnMark(sdk: Sdk, origin: State, es: seq<Event>, t: Tid, job: Job)
    requires Initial(origin) && Exec(sdk, origin, es).Some?
    requires Exec(sdk, origin, es).value.Pc(t) == Renewing(BgDrop(job))
    ensures var s := Exec(sdk, origin, es).value;
            Next(sdk, s, Run(t, Go)).Some? &&
            var r' := Next(sdk, s, Run(t, Go)).value.sh.renewal;
            if job.attempt == s.sh.renewal.attempt
            then s.sh.renewal.inFlight == Some(job.start) && r' == s.sh.renewal.(inFlight := None)
            else r' == s.sh.renewal
  {
    OwnershipHolds(sdk, origin, es);
    var s := Exec(sdk, origin, es).value;
    assert Numbered(s.sh.renewal, s.Pc(t));
  }

  // The numbers of the renewals whose outcomes are recorded strictly increase.
  lemma OutcomesAreRecordedInOrder(sdk: Sdk, origin: State, es: seq<Event>)
    requires Initial(origin) && Exec(sdk, origin, es).Some?
    ensures RecordedInOrder(Exec(sdk, origin, es).value.hist)
  {
    OwnershipHolds(sdk, origin, es);
  }
}
