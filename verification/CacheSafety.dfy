/** What every run keeps of the cache file and of the flag `check` reads without the lock. */
module CacheSafety {
  import opened Wrappers
  import opened Time
  import opened Domain
  import opened Protocol
  import opened LockDiscipline

  // A renewal of `activation` that failed to reach the server, and what the cache then held.
  datatype Cause = Cause(activation: string, held: Held)

  // The last recorded outcome, if it was such a failure with its activation held and there has been
  // no save or clear since.
  function FlagCause(h: History): Option<Cause> {
    match h
    case Nothing => None
    case Then(p, Noted(_, activation, noNetwork, held)) =>
      if noNetwork && held.Some? then Some(Cause(activation, held.value)) else None
    case Then(p, Reset) => None
    case Then(p, BgWrote) => None
    case Then(p, _) => FlagCause(p)
  }

  // `rec` passed verification and validation for this machine at a reading the clock has shown.
  ghost predicate AcceptedBefore(sdk: Sdk, past: set<Instant>, rec: Record) {
    exists at :: at in past && sdk.Accepts(rec, at)
  }

  // A record found by `holds_activation` is still the one in the cache.
  predicate StillHeld(sdk: Sdk, sh: Shared, past: set<Instant>, held: Held, activation: string) {
    sdk.cacheOn && sh.cache == Some(held.rec) && held.at in past && sdk.Names(held.rec, activation, held.at)
  }

  predicate AcceptedWrite(sdk: Sdk, past: set<Instant>, w: Write) {
    w.Save? ==> w.at in past && sdk.Accepts(w.rec, w.at)
  }

  predicate AcceptedOutcome(sdk: Sdk, past: set<Instant>, o: Outcome) {
    o.Fresh? ==> o.at in past && sdk.Accepts(o.rec, o.at)
  }

  // What a thread may rely on at its program counter.
  predicate CallKnows(sdk: Sdk, sh: Shared, past: set<Instant>, c: CallPc) {
    match c
    case NoteVerify(_, _, rec) => sdk.cacheOn && sh.cache == Some(rec)
    case NoteStore(activation, _, held) => held.Some? ==> StillHeld(sdk, sh, past, held.value, activation)
    case WriteLock(w, _) => AcceptedWrite(sdk, past, w)
    case WriteFlag(w, _) => AcceptedWrite(sdk, past, w)
    case WriteDisk(w, _) => AcceptedWrite(sdk, past, w) && !sh.failed
    case _ => true
  }

  predicate BackgroundKnows(sdk: Sdk, sh: Shared, past: set<Instant>, b: BackgroundPc) {
    match b
    case BgLock(_, o) => AcceptedOutcome(sdk, past, o)
    case BgOwn(_, o) => AcceptedOutcome(sdk, past, o)
    case BgRead(job, o) => AcceptedOutcome(sdk, past, o) && sh.renewal.attempt == job.attempt
    case BgVerify(job, o, rec) =>
      AcceptedOutcome(sdk, past, o) && sh.renewal.attempt == job.attempt && sdk.cacheOn && sh.cache == Some(rec)
    case BgStore(job, o, held) =>
      && AcceptedOutcome(sdk, past, o) && sh.renewal.attempt == job.attempt
      && (held.Some? ==> StillHeld(sdk, sh, past, held.value, job.activation))
    case BgDisk(job, o, found) =>
      && AcceptedOutcome(sdk, past, o) && sh.renewal.attempt == job.attempt
      && StillHeld(sdk, sh, past, found, job.activation)
      && (sh.failed ==> o.NoNetwork?)
    case _ => true
  }

  predicate Knows(sdk: Sdk, sh: Shared, past: set<Instant>, pc: Pc) {
    match pc
    case Calling(c) => CallKnows(sdk, sh, past, c)
    case Renewing(b) => BackgroundKnows(sdk, sh, past, b)
    case _ => true
  }

  // The cache still holds the record that verified for the activation whose renewal failed.
  predicate CauseHolds(sdk: Sdk, sh: Shared, past: set<Instant>, cause: Cause) {
    && sh.cache == Some(cause.held.rec) && cause.held.at in past
    && sdk.verify(cause.held.rec, cause.held.at).Some?
    && sdk.verify(cause.held.rec, cause.held.at).value.activationId == cause.activation
  }

  // The flag is set exactly while the cache still holds the record a renewal failed on.
  predicate FlagInv(sdk: Sdk, sh: Shared, past: set<Instant>, h: History) {
    && (sh.failed <==> FlagCause(h).Some?)
    && (sh.failed ==> CauseHolds(sdk, sh, past, FlagCause(h).value))
  }

  ghost predicate Provenance(sdk: Sdk, initial: Option<Record>, sh: Shared, past: set<Instant>) {
    sh.cache.Some? ==> sh.cache == initial || AcceptedBefore(sdk, past, sh.cache.value)
  }

  ghost predicate CacheInv(sdk: Sdk, initial: Option<Record>, s: State) {
    && s.sh.clock in s.past
    && FlagInv(sdk, s.sh, s.past, s.hist)
    && Provenance(sdk, initial, s.sh, s.past)
    && forall t: Tid :: Knows(sdk, s.sh, s.past, s.Pc(t))
  }

  // What the stepping thread starts from, and what it must establish.
  ghost predicate Before(sdk: Sdk, initial: Option<Record>, t: Tid, pc: Pc, sh: Shared, past: set<Instant>, h: History)
  {
    && (HoldsLock(pc) <==> sh.holder == Some(t))
    && sh.clock in past && FlagInv(sdk, sh, past, h) && Provenance(sdk, initial, sh, past) && Knows(sdk, sh, past, pc)
  }

  ghost predicate Afterwards(sdk: Sdk, initial: Option<Record>, m: Move, past: set<Instant>, h: History) {
    m.Move? ==>
      && FlagInv(sdk, m.sh, past, Noting(h, m.entry))
      && Provenance(sdk, initial, m.sh, past)
      && Knows(sdk, m.sh, past, m.pc)
  }

  lemma WriteKeepsCacheInv(sdk: Sdk, initial: Option<Record>, t: Tid, c: CallPc, sh: Shared, past: set<Instant>,
                           h: History, ch: Choice)
    requires c.WriteLock? || c.WriteFlag? || c.WriteDisk? || c.WriteUnlock?
    requires Before(sdk, initial, t, Calling(c), sh, past, h)
    ensures Afterwards(sdk, initial, WriteMove(sdk, t, c, sh, ch), past, h)
  {
  }

  lemma RenewKeepsCacheInv(sdk: Sdk, initial: Option<Record>, t: Tid, c: CallPc, sh: Shared, past: set<Instant>,
                           h: History, ch: Choice)
    requires c.RenewClock? || c.RenewLock? || c.RenewMark? || c.RenewUnlock? || c.RenewPost?
          || c.NoteLock? || c.NoteRead? || c.NoteVerify? || c.NoteStore? || c.NoteUnlock?
    requires Before(sdk, initial, t, Calling(c), sh, past, h)
    ensures Afterwards(sdk, initial, RenewMove(sdk, t, c, sh, ch), past, h)
  {
  }

  lemma ActivateKeepsCacheInv(sdk: Sdk, initial: Option<Record>, t: Tid, c: CallPc, sh: Shared, past: set<Instant>,
                              h: History, ch: Choice)
    requires c.ActivateLoad? || c.ActivateMatch? || c.ActivatePost? || c.DeactivatePost? || c.AcceptAnswer?
    requires Before(sdk, initial, t, Calling(c), sh, past, h)
    ensures Afterwards(sdk, initial, ActivateMove(sdk, c, sh, ch), past, h)
  {
  }

  lemma CheckKeepsCacheInv(sdk: Sdk, initial: Option<Record>, t: Tid, c: CheckPc, sh: Shared, past: set<Instant>,
                           h: History, ch: Choice)
    requires Before(sdk, initial, t, Checking(c), sh, past, h)
    ensures Afterwards(sdk, initial, CheckMove(sdk, t, c, sh, ch), past, h)
  {
  }

  lemma OutcomeKeepsCacheInv(sdk: Sdk, initial: Option<Record>, t: Tid, b: BackgroundPc, sh: Shared,
                             past: set<Instant>, h: History, ch: Choice)
    requires b.BgStore?
    requires Before(sdk, initial, t, Renewing(b), sh, past, h)
    ensures Afterwards(sdk, initial, BackgroundMove(sdk, t, b, sh, ch), past, h)
  {
  }

  lemma DiskKeepsCacheInv(sdk: Sdk, initial: Option<Record>, t: Tid, b: BackgroundPc, sh: Shared,
                          past: set<Instant>, h: History, ch: Choice)
    requires b.BgDisk?
    requires Before(sdk, initial, t, Renewing(b), sh, past, h)
    ensures Afterwards(sdk, initial, BackgroundMove(sdk, t, b, sh, ch), past, h)
  {
  }

  lemma BackgroundKeepsCacheInv(sdk: Sdk, initial: Option<Record>, t: Tid, b: BackgroundPc, sh: Shared,
                                past: set<Instant>, h: History, ch: Choice)
    requires Before(sdk, initial, t, Renewing(b), sh, past, h)
    ensures Afterwards(sdk, initial, BackgroundMove(sdk, t, b, sh, ch), past, h)
  {
    if b.BgStore? {
      OutcomeKeepsCacheInv(sdk, initial, t, b, sh, past, h, ch);
    } else if b.BgDisk? {
      DiskKeepsCacheInv(sdk, initial, t, b, sh, past, h, ch);
    }
  }

  // The stepping thread: what it knew lets it keep the invariant and know what it needs next.
  lemma MoveKeepsCacheInv(sdk: Sdk, initial: Option<Record>, t: Tid, pc: Pc, sh: Shared, past: set<Instant>,
                          h: History, ch: Choice)
    requires Before(sdk, initial, t, pc, sh, past, h)
    ensures Afterwards(sdk, initial, ThreadMove(sdk, t, pc, sh, ch), past, h)
  {
    match pc
    case Checking(c) =>
      CheckKeepsCacheInv(sdk, initial, t, c, sh, past, h, ch);
    case Calling(c) =>
      if c.WriteLock? || c.WriteFlag? || c.WriteDisk? || c.WriteUnlock? {
        WriteKeepsCacheInv(sdk, initial, t, c, sh, past, h, ch);
      } else if c.ActivateLoad? || c.ActivateMatch? || c.ActivatePost? || c.DeactivatePost? || c.AcceptAnswer? {
        ActivateKeepsCacheInv(sdk, initial, t, c, sh, past, h, ch);
      } else {
        RenewKeepsCacheInv(sdk, initial, t, c, sh, past, h, ch);
      }
    case Renewing(b) =>
      BackgroundKeepsCacheInv(sdk, initial, t, b, sh, past, h, ch);
    case _ =>
  }

  // Everyone else: a thread outside the lock relies on nothing the lock guards.
  lemma KnowledgeIsStable(sdk: Sdk, sh: Shared, sh': Shared, past: set<Instant>, past': set<Instant>, pc: Pc)
    requires Knows(sdk, sh, past, pc) && past <= past'
    requires HoldsLock(pc) ==> sh' == sh.(holder := sh'.holder, clock := sh'.clock)
    ensures Knows(sdk, sh', past', pc)
  {
  }

  lemma NextKeepsCacheInv(sdk: Sdk, initial: Option<Record>, s: State, e: Event)
    requires LockInv(s) && CacheInv(sdk, initial, s) && Next(sdk, s, e).Some?
    ensures CacheInv(sdk, initial, Next(sdk, s, e).value)
  {
    var s' := Next(sdk, s, e).value;
    match e
    case Tick(_) =>
      forall u: Tid ensures Knows(sdk, s'.sh, s'.past, s'.Pc(u)) {
        assert Knows(sdk, s.sh, s.past, s.Pc(u));
        KnowledgeIsStable(sdk, s.sh, s'.sh, s.past, s'.past, s.Pc(u));
      }
    case Run(t, ch) =>
      assert HoldsLock(s.Pc(t)) <==> s.sh.holder == Some(t);
      assert Knows(sdk, s.sh, s.past, s.Pc(t));
      MoveDiscipline(sdk, t, s.Pc(t), s.sh, ch);
      MoveKeepsCacheInv(sdk, initial, t, s.Pc(t), s.sh, s.past, s.hist, ch);
      forall u: Tid ensures Knows(sdk, s'.sh, s'.past, s'.Pc(u)) {
        assert Knows(sdk, s.sh, s.past, s.Pc(u));
        assert HoldsLock(s.Pc(u)) <==> s.sh.holder == Some(u);
        if u != t && s'.Pc(u) == s.Pc(u) {
          KnowledgeIsStable(sdk, s.sh, s'.sh, s.past, s'.past, s.Pc(u));
        }
      }
  }

  lemma InitialCacheInv(sdk: Sdk, s: State)
    requires Initial(s)
    ensures LockInv(s) && CacheInv(sdk, s.sh.cache, s)
  {
  }

  lemma {:induction false} ExecKeepsCacheInv(sdk: Sdk, initial: Option<Record>, s: State, es: seq<Event>)
    requires LockInv(s) && CacheInv(sdk, initial, s) && Exec(sdk, s, es).Some?
    ensures LockInv(Exec(sdk, s, es).value) && CacheInv(sdk, initial, Exec(sdk, s, es).value)
    decreases |es|
  {
    if es == [] {
    } else {
      NextKeepsLockInv(sdk, s, es[0]);
      NextKeepsCacheInv(sdk, initial, s, es[0]);
      ExecKeepsCacheInv(sdk, initial, Next(sdk, s, es[0]).value, es[1..]);
    }
  }

  /******* What follows for every run *******/

  // The flag can be true only while the cache still holds the very record it held when a renewal
  // failed to reach the server, and that record verified for the activation being renewed; and the flag
  // is true exactly when that failure is the last outcome, save or clear there has been. It holds at
  // every state, so also where the lock-free read in `check` looks in on another thread's critical
  // section.
  lemma FlagTellsTheLastOutcome(sdk: Sdk, origin: State, es: seq<Event>)
    requires Initial(origin) && Exec(sdk, origin, es).Some?
    ensures var s := Exec(sdk, origin, es).value;
            && (s.sh.failed <==> FlagCause(s.hist).Some?)
            && (s.sh.failed ==> CauseHolds(sdk, s.sh, s.past, FlagCause(s.hist).value))
  {
    InitialCacheInv(sdk, origin);
    ExecKeepsCacheInv(sdk, origin.sh.cache, origin, es);
  }

  // An outcome goes on record for the very renewal that ended: its activation, whether the server was
  // out of reach, and what was found in the cache are the recording thread's own.
  lemma OutcomesAreTheRenewalsOwn(sdk: Sdk, t: Tid, pc: Pc, sh: Shared, ch: Choice)
    requires ThreadMove(sdk, t, pc, sh, ch).Move?
    ensures var e := ThreadMove(sdk, t, pc, sh, ch).entry;
            if pc.Calling? && pc.call.NoteStore? then
              e == Some(Noted(None, pc.call.activation, pc.call.reply.Unreachable?, pc.call.held))
            else if pc.Renewing? && pc.bg.BgStore? then
              e == Some(Noted(Some(pc.bg.job.attempt), pc.bg.job.activation, pc.bg.outcome.NoNetwork?, pc.bg.held))
            else e.Some? ==> !e.value.Noted?
  {
    match pc
    case Checking(c) =>
    case Calling(c) =>
    case Renewing(b) =>
    case _ =>
  }

  // The cache is at all times empty, its initial record, or a record that passed the whole pipeline
  // for this machine at an earlier reading of the clock, whatever the server answered.
  lemma CacheProvenance(sdk: Sdk, origin: State, es: seq<Event>)
    requires Initial(origin) && Exec(sdk, origin, es).Some?
    ensures var s := Exec(sdk, origin, es).value;
            s.sh.cache.None? || s.sh.cache == origin.sh.cache || AcceptedBefore(sdk, s.past, s.sh.cache.value)
  {
    InitialCacheInv(sdk, origin);
    ExecKeepsCacheInv(sdk, origin.sh.cache, origin, es);
  }

  // The cache file changes in two kinds of step only.
  predicate WritesCache(pc: Pc) {
    (pc.Calling? && pc.call.WriteDisk?) || (pc.Renewing? && pc.bg.BgDisk?)
  }

  lemma OnlyWritesWrite(sdk: Sdk, t: Tid, pc: Pc, sh: Shared, ch: Choice)
    requires ThreadMove(sdk, t, pc, sh, ch).Move? && !WritesCache(pc)
    ensures ThreadMove(sdk, t, pc, sh, ch).sh.cache == sh.cache
  {
    match pc
    case Checking(c) =>
    case Calling(c) =>
    case Renewing(b) =>
    case _ =>
  }

  // The cache changes only in the two write steps. When a background renewal makes one, it is still
  // the current renewal, the record it replaces is exactly the one `holds_activation` read and
  // verified for the activation being renewed, and what it leaves is an accepted record after a
  // success and nothing after a rejection.
  lemma BackgroundWritesAreConditional(sdk: Sdk, origin: State, es: seq<Event>, t: Tid, ch: Choice)
    requires Initial(origin) && Exec(sdk, origin, es).Some?
    requires Next(sdk, Exec(sdk, origin, es).value, Run(t, ch)).Some?
    ensures var s := Exec(sdk, origin, es).value;
            var s' := Next(sdk, s, Run(t, ch)).value;
            && (s'.sh.cache != s.sh.cache ==> WritesCache(s.Pc(t)))
            && (s.Pc(t).Renewing? && s.Pc(t).bg.BgDisk? ==>
                  var b := s.Pc(t).bg;
                  && s.sh.holder == Some(t)
                  && s.sh.renewal.attempt == b.job.attempt
                  && s.sh.cache == Some(b.found.rec)
                  && b.found.at in s.past
                  && sdk.verify(b.found.rec, b.found.at).Some?
                  && sdk.verify(b.found.rec, b.found.at).value.activationId == b.job.activation
                  && (s'.sh.cache == s.sh.cache
                      || (b.outcome.Rejected? && s'.sh.cache.None?)
                      || (b.outcome.Fresh? && s'.sh.cache == Some(b.outcome.rec)
                          && b.outcome.at in s.past && sdk.Accepts(b.outcome.rec, b.outcome.at))))
  {
    InitialCacheInv(sdk, origin);
    ExecKeepsCacheInv(sdk, origin.sh.cache, origin, es);
    var s := Exec(sdk, origin, es).value;
    assert Knows(sdk, s.sh, s.past, s.Pc(t));
    assert HoldsLock(s.Pc(t)) <==> s.sh.holder == Some(t);
    if !WritesCache(s.Pc(t)) {
      OnlyWritesWrite(sdk, t, s.Pc(t), s.sh, ch);
    }
  }

  // A renewal that a newer one has taken over from changes neither the flag nor the cache nor the
  // newer one's mark.
  lemma StaleRenewalsAreInert(sdk: Sdk, origin: State, es: seq<Event>, t: Tid, ch: Choice)
    requires Initial(origin) && Exec(sdk, origin, es).Some?
    requires Next(sdk, Exec(sdk, origin, es).value, Run(t, ch)).Some?
    requires Exec(sdk, origin, es).value.Pc(t).Renewing?
    requires Exec(sdk, origin, es).value.Pc(t).bg.job.attempt != Exec(sdk, origin, es).value.sh.renewal.attempt
    ensures var s := Exec(sdk, origin, es).value;
            var s' := Next(sdk, s, Run(t, ch)).value;
            s'.sh == s.sh.(holder := s'.sh.holder)
  {
    InitialCacheInv(sdk, origin);
    ExecKeepsCacheInv(sdk, origin.sh.cache, origin, es);
    var s := Exec(sdk, origin, es).value;
    assert Knows(sdk, s.sh, s.past, s.Pc(t));
  }

  // A step in which `activate` or a manual `renew` puts a record into the cache file.
  predicate ManualSave(sdk: Sdk, s: State, e: Event) {
    && e.Run? && s.Pc(e.t).Calling? && s.Pc(e.t).call.WriteDisk? && s.Pc(e.t).call.write.Save?
    && sdk.cacheOn && e.choice == Disk(true)
  }

  ghost predicate NoManualSave(sdk: Sdk, s: State, es: seq<Event>)
    decreases |es|
  {
    es == [] || (!ManualSave(sdk, s, es[0])
                 && (Next(sdk, s, es[0]).Some? ==> NoManualSave(sdk, Next(sdk, s, es[0]).value, es[1..])))
  }

  // A `check` that has read a record and not answered yet.
  predicate HasRead(pc: Pc) {
    pc.Checking? && !pc.check.CheckLoad?
  }

  lemma EmptyIsNotRead(sdk: Sdk, t: Tid, pc: Pc, sh: Shared, ch: Choice)
    requires sh.cache.None? && ThreadMove(sdk, t, pc, sh, ch).Move?
    ensures HasRead(ThreadMove(sdk, t, pc, sh, ch).pc) ==> HasRead(pc)
  {
    match pc
    case Checking(c) =>
    case Calling(c) =>
    case Renewing(b) =>
    case _ =>
  }

  lemma EmptyStaysEmpty(sdk: Sdk, initial: Option<Record>, s: State, e: Event)
    requires LockInv(s) && CacheInv(sdk, initial, s) && s.sh.cache.None?
    requires !ManualSave(sdk, s, e) && Next(sdk, s, e).Some?
    ensures var s' := Next(sdk, s, e).value;
            s'.sh.cache.None? && forall u: Tid :: HasRead(s'.Pc(u)) ==> HasRead(s.Pc(u))
  {
    if e.Run? {
      assert Knows(sdk, s.sh, s.past, s.Pc(e.t));
      if WritesCache(s.Pc(e.t)) {
      } else {
        OnlyWritesWrite(sdk, e.t, s.Pc(e.t), s.sh, e.choice);
        EmptyIsNotRead(sdk, e.t, s.Pc(e.t), s.sh, e.choice);
      }
    }
  }

  ghost predicate StaysEmpty(sdk: Sdk, s: State, s': State) {
    && s'.sh.cache.None?
    && (forall u: Tid :: HasRead(s'.Pc(u)) ==> HasRead(s.Pc(u)))
    && (forall u: Tid, works: bool :: s'.Pc(u) == Checking(CheckLoad) ==>
          ThreadMove(sdk, u, s'.Pc(u), s'.sh, Disk(works)) == Logged(Idle, s'.sh, Checked(false, NotActivated)))
  }

  lemma {:induction false} EmptyRunsStayEmpty(sdk: Sdk, initial: Option<Record>, s: State, es: seq<Event>)
    requires LockInv(s) && CacheInv(sdk, initial, s) && s.sh.cache.None?
    requires NoManualSave(sdk, s, es) && Exec(sdk, s, es).Some?
    ensures StaysEmpty(sdk, s, Exec(sdk, s, es).value)
    decreases |es|
  {
    if es == [] {
    } else {
      EmptyStaysEmpty(sdk, initial, s, es[0]);
      NextKeepsLockInv(sdk, s, es[0]);
      NextKeepsCacheInv(sdk, initial, s, es[0]);
      EmptyRunsStayEmpty(sdk, initial, Next(sdk, s, es[0]).value, es[1..]);
    }
  }

  // No resurrection: from any reachable state with an empty cache, the cache stays empty however many
  // background renewals later succeed, until `activate` or a manual `renew` saves. No `check` reads a
  // record in the meantime, and each one that looks answers `NotActivated`.
  lemma NoResurrection(sdk: Sdk, origin: State, before: seq<Event>, after: seq<Event>)
    requires Initial(origin) && Exec(sdk, origin, before).Some?
    requires Exec(sdk, origin, before).value.sh.cache.None?
    requires NoManualSave(sdk, Exec(sdk, origin, before).value, after)
    requires Exec(sdk, Exec(sdk, origin, before).value, after).Some?
    ensures var s := Exec(sdk, origin, before).value;
            StaysEmpty(sdk, s, Exec(sdk, s, after).value)
  {
    InitialCacheInv(sdk, origin);
    ExecKeepsCacheInv(sdk, origin.sh.cache, origin, before);
    EmptyRunsStayEmpty(sdk, origin.sh.cache, Exec(sdk, origin, before).value, after);
  }

  // The cache is empty in every state of the run.
  ghost predicate AlwaysEmpty(sdk: Sdk, s: State, es: seq<Event>)
    decreases |es|
  {
    s.sh.cache.None?
    && (es == [] || (Next(sdk, s, es[0]).Some? ==> AlwaysEmpty(sdk, Next(sdk, s, es[0]).value, es[1..])))
  }

  lemma {:induction false} AlwaysEmptyIff(sdk: Sdk, initial: Option<Record>, s: State, es: seq<Event>)
    requires LockInv(s) && CacheInv(sdk, initial, s) && s.sh.cache.None? && Exec(sdk, s, es).Some?
    ensures AlwaysEmpty(sdk, s, es) <==> NoManualSave(sdk, s, es)
    decreases |es|
  {
    if es == [] {
    } else {
      var s' := Next(sdk, s, es[0]).value;
      if ManualSave(sdk, s, es[0]) {
        assert s'.sh.cache == Some(s.Pc(es[0].t).call.write.rec);
      } else {
        EmptyStaysEmpty(sdk, initial, s, es[0]);
        NextKeepsLockInv(sdk, s, es[0]);
        NextKeepsCacheInv(sdk, initial, s, es[0]);
        AlwaysEmptyIff(sdk, initial, s', es[1..]);
      }
    }
  }

  // And exactly until then: a run from such a state finds the cache empty throughout if and only if no step
  // of it is a manual save.
  lemma EmptyExactlyUntilAManualSave(sdk: Sdk, origin: State, before: seq<Event>, after: seq<Event>)
    requires Initial(origin) && Exec(sdk, origin, before).Some?
    requires Exec(sdk, origin, before).value.sh.cache.None?
    requires Exec(sdk, Exec(sdk, origin, before).value, after).Some?
    ensures var s := Exec(sdk, origin, before).value; AlwaysEmpty(sdk, s, after) <==> NoManualSave(sdk, s, after)
  {
    InitialCacheInv(sdk, origin);
    ExecKeepsCacheInv(sdk, origin.sh.cache, origin, before);
    AlwaysEmptyIff(sdk, origin.sh.cache, Exec(sdk, origin, before).value, after);
  }
}
