/** Interleaving does not show: however the steps of other threads and the clock are mixed into a critical
    section, it does what its effect in `CriticalSections` does at once. */
module Atomicity {
  import opened Wrappers
  import opened Time
  import opened Protocol
  import opened LockDiscipline
  import opened CriticalSections

  // The four critical sections: a background renewal's outcome, a manual renewal's outcome, a manual
  // save or clear, and the start of a background renewal.
  datatype Section =
    | Storing(job: Job, outcome: Outcome)
    | Recording(activation: string, reply: Reply)
    | Writing(write: Write, after: After)
    | Starting(view: View, now: Instant)

  function Entry(sec: Section): Pc {
    match sec
    case Storing(job, outcome) => Renewing(BgOwn(job, outcome))
    case Recording(activation, reply) => Calling(NoteRead(activation, reply))
    case Writing(write, after) => Calling(WriteFlag(write, after))
    case Starting(view, now) => Checking(CheckDecide(view, now))
  }

  function Exit(sec: Section): Pc {
    match sec
    case Storing(job, _) => Renewing(BgUnlock(job))
    case Recording(_, reply) => Calling(NoteUnlock(reply))
    case Writing(_, after) => Calling(WriteUnlock(after))
    case Starting(view, _) => Checking(CheckUnlock(view))
  }

  // Alike in everything the lock guards.
  predicate Same(a: Shared, b: Shared) {
    a.renewal == b.renewal && a.failed == b.failed && a.cache == b.cache
  }

  // The section's whole effect on `sh`, for one of the readings `shown` and some outcome of the file
  // operations and the spawn, is `sh'`.
  ghost predicate Done(sdk: Sdk, sec: Section, sh: Shared, sh': Shared, shown: set<Instant>) {
    match sec
    case Storing(job, outcome) =>
      exists readOk, writeOk, at ::
        at in shown && Same(StoreEffect(sdk, sh.(clock := at), job, outcome, readOk, writeOk), sh')
    case Recording(activation, reply) =>
      exists readOk, at ::
        at in shown && Same(NoteEffect(sdk, sh.(clock := at), activation, reply.Unreachable?, readOk), sh')
    case Writing(write, _) => exists writeOk :: Same(WriteEffect(sdk, sh, write, writeOk), sh')
    case Starting(_, now) => exists spawnOk :: Same(StartEffect(sh, now, spawnOk), sh')
  }

  ghost predicate ReadAt(sdk: Sdk, sh: Shared, shown: set<Instant>, activation: string, held: Option<Held>) {
    exists readOk, at :: at in shown && held == Found(sdk, sh.(clock := at), activation, readOk)
  }

  /******* How far a section has come *******/

  // The section began at `sh`; its thread is at `pc` and the state is `sh'`.
  ghost predicate StoreStage(sdk: Sdk, sh: Shared, sh': Shared, shown: set<Instant>, job: Job, outcome: Outcome,
                             b: BackgroundPc)
  {
    match b
    case BgOwn(j, o) => j == job && o == outcome && Same(sh, sh')
    case BgRead(j, o) => j == job && o == outcome && Same(sh, sh') && sh.renewal.attempt == job.attempt
    case BgVerify(j, o, rec) =>
      j == job && o == outcome && Same(sh, sh') && sh.renewal.attempt == job.attempt && Load(sdk, sh, true) == Some(rec)
    case BgStore(j, o, held) =>
      && j == job && o == outcome && Same(sh, sh') && sh.renewal.attempt == job.attempt
      && ReadAt(sdk, sh, shown, job.activation, held)
    case BgDisk(j, o, found) =>
      && j == job && o == outcome && sh.renewal.attempt == job.attempt
      && ReadAt(sdk, sh, shown, job.activation, Some(found)) && Same(sh.(failed := outcome.NoNetwork?), sh')
    case BgUnlock(j) => j == job && Done(sdk, Storing(job, outcome), sh, sh', shown)
    case _ => false
  }

  ghost predicate RecordStage(sdk: Sdk, sh: Shared, sh': Shared, shown: set<Instant>, activation: string,
                              reply: Reply, c: CallPc)
  {
    match c
    case NoteRead(a, r) => a == activation && r == reply && Same(sh, sh')
    case NoteVerify(a, r, rec) => a == activation && r == reply && Same(sh, sh') && Load(sdk, sh, true) == Some(rec)
    case NoteStore(a, r, held) =>
      a == activation && r == reply && Same(sh, sh') && ReadAt(sdk, sh, shown, activation, held)
    case NoteUnlock(r) => r == reply && Done(sdk, Recording(activation, reply), sh, sh', shown)
    case _ => false
  }

  ghost predicate WriteStage(sdk: Sdk, sh: Shared, sh': Shared, shown: set<Instant>, write: Write, after: After,
                             c: CallPc)
  {
    match c
    case WriteFlag(w, a) => w == write && a == after && Same(sh, sh')
    case WriteDisk(w, a) => w == write && a == after && Same(sh.(failed := false), sh')
    case WriteUnlock(a) => a == after && Done(sdk, Writing(write, after), sh, sh', shown)
    case _ => false
  }

  ghost predicate StartStage(sdk: Sdk, sh: Shared, sh': Shared, shown: set<Instant>, view: View, now: Instant,
                             c: CheckPc)
  {
    match c
    case CheckDecide(v, n) => v == view && n == now && Same(sh, sh')
    case CheckSpawn(v, job) => v == view && Due(sh.renewal, now) && Same(sh.(renewal := Begin(sh.renewal, now)), sh')
    case CheckUnlock(v) => v == view && Done(sdk, Starting(view, now), sh, sh', shown)
    case _ => false
  }

  ghost predicate Stage(sdk: Sdk, sec: Section, sh: Shared, sh': Shared, shown: set<Instant>, pc: Pc) {
    match sec
    case Storing(job, outcome) => pc.Renewing? && StoreStage(sdk, sh, sh', shown, job, outcome, pc.bg)
    case Recording(activation, reply) => pc.Calling? && RecordStage(sdk, sh, sh', shown, activation, reply, pc.call)
    case Writing(write, after) => pc.Calling? && WriteStage(sdk, sh, sh', shown, write, after, pc.call)
    case Starting(view, now) => pc.Checking? && StartStage(sdk, sh, sh', shown, view, now, pc.check)
  }

  /******* The section's own steps *******/

  lemma {:induction false} StoreStep(sdk: Sdk, sh: Shared, sh': Shared, shown: set<Instant>, job: Job, outcome: Outcome,
                                     t: Tid, b: BackgroundPc, ch: Choice)
    requires sh'.clock in shown && StoreStage(sdk, sh, sh', shown, job, outcome, b) && !b.BgUnlock?
    requires BackgroundMove(sdk, t, b, sh', ch).Move?
    ensures var m := BackgroundMove(sdk, t, b, sh', ch);
            m.pc.Renewing? && StoreStage(sdk, sh, m.sh, shown, job, outcome, m.pc.bg)
  {
    var here := sh.(clock := sh'.clock);
    match b
    case BgOwn(_, _) =>
      if sh'.renewal.attempt != job.attempt {
        assert Same(StoreEffect(sdk, here, job, outcome, true, true), sh');
      }
    case BgRead(_, _) =>
      assert Found(sdk, here, job.activation, false) == None;
      if Load(sdk, sh, true).None? {
        assert Found(sdk, here, job.activation, true) == None;
      }
    case BgVerify(_, _, rec) =>
      assert Found(sdk, here, job.activation, true) == HeldIf(sdk, rec, job.activation, sh'.clock);
    case BgStore(_, _, held) =>
      NothingHeld(sdk, sh, sh', shown, job, outcome, held);
    case BgDisk(_, _, found) =>
      DiskWritten(sdk, sh, sh', shown, job, outcome, found, ch.Disk? && ch.works);
    case _ =>
  }

  lemma {:induction false} NothingHeld(sdk: Sdk, sh: Shared, sh': Shared, shown: set<Instant>, job: Job,
                                       outcome: Outcome, held: Option<Held>)
    requires Same(sh, sh') && sh.renewal.attempt == job.attempt && ReadAt(sdk, sh, shown, job.activation, held)
    ensures held.None? ==> Done(sdk, Storing(job, outcome), sh, sh'.(failed := false), shown)
  {
    var readOk, at :| at in shown && held == Found(sdk, sh.(clock := at), job.activation, readOk);
    if held.None? {
      assert Same(StoreEffect(sdk, sh.(clock := at), job, outcome, readOk, true), sh'.(failed := false));
    }
  }

  lemma {:induction false} DiskWritten(sdk: Sdk, sh: Shared, sh': Shared, shown: set<Instant>, job: Job,
                                       outcome: Outcome,
                                   found: Held, writeOk: bool)
    requires sh.renewal.attempt == job.attempt && ReadAt(sdk, sh, shown, job.activation, Some(found))
    requires Same(sh.(failed := outcome.NoNetwork?), sh')
    ensures var left := if outcome.Fresh? then Stored(sdk, sh', Some(outcome.rec), writeOk)
                        else if outcome.Rejected? then Stored(sdk, sh', None, writeOk)
                        else sh';
            Done(sdk, Storing(job, outcome), sh, left, shown)
  {
    var readOk, at :| at in shown && Some(found) == Found(sdk, sh.(clock := at), job.activation, readOk);
    var whole := StoreEffect(sdk, sh.(clock := at), job, outcome, readOk, writeOk);
    assert outcome.Fresh? ==> Same(whole, Stored(sdk, sh', Some(outcome.rec), writeOk));
    assert outcome.Rejected? ==> Same(whole, Stored(sdk, sh', None, writeOk));
    assert !outcome.Fresh? && !outcome.Rejected? ==> Same(whole, sh');
  }

  lemma {:induction false} RecordStep(sdk: Sdk, sh: Shared, sh': Shared, shown: set<Instant>, activation: string,
                                      reply: Reply, t: Tid, c: CallPc, ch: Choice)
    requires sh'.clock in shown && RecordStage(sdk, sh, sh', shown, activation, reply, c) && !c.NoteUnlock?
    requires RenewMove(sdk, t, c, sh', ch).Move?
    ensures var m := RenewMove(sdk, t, c, sh', ch);
            m.pc.Calling? && RecordStage(sdk, sh, m.sh, shown, activation, reply, m.pc.call)
  {
    var here := sh.(clock := sh'.clock);
    match c
    case NoteRead(_, _) =>
      assert Found(sdk, here, activation, false) == None;
      if Load(sdk, sh, true).None? {
        assert Found(sdk, here, activation, true) == None;
      }
    case NoteVerify(_, _, rec) =>
      assert Found(sdk, here, activation, true) == HeldIf(sdk, rec, activation, sh'.clock);
    case NoteStore(_, _, held) =>
      var readOk, at :| at in shown && held == Found(sdk, sh.(clock := at), activation, readOk);
      assert Same(NoteEffect(sdk, sh.(clock := at), activation, reply.Unreachable?, readOk),
                  sh'.(failed := FlagFor(reply.Unreachable?, held)));
  }

  lemma {:induction false} WriteStep(sdk: Sdk, sh: Shared, sh': Shared, shown: set<Instant>, write: Write, after: After,
                                     t: Tid, c: CallPc, ch: Choice)
    requires WriteStage(sdk, sh, sh', shown, write, after, c) && !c.WriteUnlock?
    requires WriteMove(sdk, t, c, sh', ch).Move?
    ensures var m := WriteMove(sdk, t, c, sh', ch);
            m.pc.Calling? && WriteStage(sdk, sh, m.sh, shown, write, after, m.pc.call)
  {
    if c.WriteDisk? {
      assert Same(WriteEffect(sdk, sh, write, ch.works), WriteMove(sdk, t, c, sh', ch).sh);
    }
  }

  lemma {:induction false} StartStep(sdk: Sdk, sh: Shared, sh': Shared, shown: set<Instant>, view: View, now: Instant,
                                     t: Tid, c: CheckPc, ch: Choice)
    requires StartStage(sdk, sh, sh', shown, view, now, c) && !c.CheckUnlock?
    requires CheckMove(sdk, t, c, sh', ch).Move?
    ensures var m := CheckMove(sdk, t, c, sh', ch);
            m.pc.Checking? && StartStage(sdk, sh, m.sh, shown, view, now, m.pc.check)
  {
    match c
    case CheckDecide(_, _) =>
      assert !Due(sh.renewal, now) ==> Same(StartEffect(sh, now, true), sh');
    case CheckSpawn(_, _) =>
      assert Same(StartEffect(sh, now, ch.Spawned?), CheckMove(sdk, t, c, sh', ch).sh);
  }

  lemma {:induction false} OwnStep(sdk: Sdk, sec: Section, sh: Shared, sh': Shared, shown: set<Instant>, t: Tid, pc: Pc,
                                   ch: Choice)
    requires sh'.clock in shown && Stage(sdk, sec, sh, sh', shown, pc) && ThreadMove(sdk, t, pc, sh', ch).Move?
    requires ThreadMove(sdk, t, pc, sh', ch).sh.holder.Some?
    ensures var m := ThreadMove(sdk, t, pc, sh', ch); Stage(sdk, sec, sh, m.sh, shown, m.pc)
  {
    match sec
    case Storing(job, outcome) => StoreStep(sdk, sh, sh', shown, job, outcome, t, pc.bg, ch);
    case Recording(activation, reply) => RecordStep(sdk, sh, sh', shown, activation, reply, t, pc.call, ch);
    case Writing(write, after) => WriteStep(sdk, sh, sh', shown, write, after, t, pc.call, ch);
    case Starting(view, now) => StartStep(sdk, sh, sh', shown, view, now, t, pc.check, ch);
  }

  /******* The steps of others *******/

  lemma {:induction false} DoneStays(sdk: Sdk, sec: Section, sh: Shared, sh': Shared, sh'': Shared,
                                     shown: set<Instant>, shown': set<Instant>)
    requires Done(sdk, sec, sh, sh', shown) && Same(sh', sh'') && shown <= shown'
    ensures Done(sdk, sec, sh, sh'', shown')
  {
    match sec
    case Storing(job, outcome) =>
      var readOk, writeOk, at :|
        at in shown && Same(StoreEffect(sdk, sh.(clock := at), job, outcome, readOk, writeOk), sh');
      assert at in shown' && Same(StoreEffect(sdk, sh.(clock := at), job, outcome, readOk, writeOk), sh'');
    case Recording(activation, reply) =>
      var readOk, at :|
        at in shown && Same(NoteEffect(sdk, sh.(clock := at), activation, reply.Unreachable?, readOk), sh');
      assert at in shown' && Same(NoteEffect(sdk, sh.(clock := at), activation, reply.Unreachable?, readOk), sh'');
    case Writing(write, _) =>
      var writeOk :| Same(WriteEffect(sdk, sh, write, writeOk), sh');
      assert Same(WriteEffect(sdk, sh, write, writeOk), sh'');
    case Starting(_, now) =>
      var spawnOk :| Same(StartEffect(sh, now, spawnOk), sh');
      assert Same(StartEffect(sh, now, spawnOk), sh'');
  }

  lemma {:induction false} ReadAtStays(sdk: Sdk, sh: Shared, shown: set<Instant>, shown': set<Instant>,
                                       activation: string, held: Option<Held>)
    requires ReadAt(sdk, sh, shown, activation, held) && shown <= shown'
    ensures ReadAt(sdk, sh, shown', activation, held)
  {
    var readOk, at :| at in shown && held == Found(sdk, sh.(clock := at), activation, readOk);
    assert at in shown';
  }

  lemma {:induction false} StageStays(sdk: Sdk, sec: Section, sh: Shared, sh': Shared, sh'': Shared,
                                      shown: set<Instant>, shown': set<Instant>, pc: Pc)
    requires Stage(sdk, sec, sh, sh', shown, pc) && Same(sh', sh'') && shown <= shown'
    ensures Stage(sdk, sec, sh, sh'', shown', pc)
  {
    if pc == Exit(sec) {
      DoneStays(sdk, sec, sh, sh', sh'', shown, shown');
    } else if pc.Renewing? && (pc.bg.BgStore? || pc.bg.BgDisk?) {
      var held := if pc.bg.BgStore? then pc.bg.held else Some(pc.bg.found);
      ReadAtStays(sdk, sh, shown, shown', pc.bg.job.activation, held);
    } else if pc.Calling? && pc.call.NoteStore? {
      ReadAtStays(sdk, sh, shown, shown', pc.call.activation, pc.call.held);
    }
  }

  /******* Whole sections *******/

  // The clock readings shown in states `i` to `j`.
  function Readings(ss: seq<State>, i: nat, j: nat): set<Instant>
    requires i <= j < |ss|
  {
    set k | i <= k <= j :: ss[k].sh.clock
  }

  // Thread `t` holds the lock in all of these states.
  ghost predicate HeldThroughout(ss: seq<State>, i: nat, j: nat, t: Tid) {
    i <= j < |ss| && forall k :: i <= k <= j ==> HeldBy(ss[k], t)
  }

  predicate HeldBy(s: State, t: Tid) { s.sh.holder == Some(t) }

  lemma {:induction false} OneStep(sdk: Sdk, sec: Section, sh: Shared, s: State, e: Event, shown: set<Instant>,
                                   shown': set<Instant>, t: Tid)
    requires LockInv(s) && HeldBy(s, t) && Next(sdk, s, e).Some? && HeldBy(Next(sdk, s, e).value, t)
    requires s.sh.clock in shown && shown <= shown' && Stage(sdk, sec, sh, s.sh, shown, s.Pc(t))
    ensures var s' := Next(sdk, s, e).value; Stage(sdk, sec, sh, s'.sh, shown', s'.Pc(t))
  {
    var s' := Next(sdk, s, e).value;
    if Involves(e, t) {
      OwnMove(sdk, s, e);
      OwnStep(sdk, sec, sh, s.sh, shown, t, s.Pc(t), e.choice);
      StageStays(sdk, sec, sh, s'.sh, s'.sh, shown, shown', s'.Pc(t));
    } else {
      assert HoldsLock(s.Pc(t));
      OthersStay(sdk, s, e, t);
      if e.Run? {
        assert HoldsLock(s.Pc(e.t)) <==> s.sh.holder == Some(e.t);
        OwnMove(sdk, s, e);
        MoveDiscipline(sdk, e.t, s.Pc(e.t), s.sh, e.choice);
      }
      StageStays(sdk, sec, sh, s.sh, s'.sh, shown, shown', s.Pc(t));
    }
  }

  lemma {:induction false} StagesFollow(sdk: Sdk, sec: Section, ss: seq<State>, es: seq<Event>, i: nat, j: nat, t: Tid)
    requires Behaviour(sdk, ss, es) && LockInv(ss[0]) && HeldThroughout(ss, i, j, t) && ss[i].Pc(t) == Entry(sec)
    ensures Stage(sdk, sec, ss[i].sh, ss[j].sh, Readings(ss, i, j), ss[j].Pc(t))
    decreases j
  {
    if i == j {
    } else {
      StagesFollow(sdk, sec, ss, es, i, j - 1, t);
      LockInvAlong(sdk, ss, es, j - 1);
      assert Next(sdk, ss[j - 1], es[j - 1]) == Some(ss[j]);
      assert HeldBy(ss[j - 1], t) && HeldBy(ss[j], t);
      assert ss[j - 1].sh.clock in Readings(ss, i, j - 1);
      assert Readings(ss, i, j - 1) <= Readings(ss, i, j);
      OneStep(sdk, sec, ss[i].sh, ss[j - 1], es[j - 1], Readings(ss, i, j - 1), Readings(ss, i, j), t);
    }
  }

  // In any run, from the state in which a thread has the lock for one of the four sections to the state
  // in which it is about to give it back, whatever other threads and the clock do in between: the record,
  // the flag and the cache end up as if the whole section had been one step at its start, with one of the
  // clock readings shown during the section.
  lemma {:induction false} SectionsAreAtomic(sdk: Sdk, sec: Section, ss: seq<State>, es: seq<Event>, i: nat, j: nat,
                                             t: Tid)
    requires Behaviour(sdk, ss, es) && LockInv(ss[0]) && HeldThroughout(ss, i, j, t)
    requires ss[i].Pc(t) == Entry(sec) && ss[j].Pc(t) == Exit(sec)
    ensures Done(sdk, sec, ss[i].sh, ss[j].sh, Readings(ss, i, j))
  {
    StagesFollow(sdk, sec, ss, es, i, j, t);
  }
}
