/** The renewal protocol of one `Sdk` and its clones (src/http.rs) as a transition system.

    Any number of threads run `check`, `activate`, `renew`, `deactivate` and detached background
    renewals. Every lock request, cache read, clock read, flag store, cache write and lock release
    is a step of its own. What the model does not decide (the clock, the server's answers, whether a
    thread can be spawned, whether a file operation works) arrives as the choice of a step, so a
    theorem about all event sequences is one about all of these. */
module Protocol {
  import opened Wrappers
  import opened Time
  import opened Domain
  import opened Validate

  const RENEW_AFTER: Duration := 3600 * SECOND
  const RENEW_RETRY: Duration := 300 * SECOND

  type Tid = nat

  // The parts of an `Sdk` that never change. `verify` is chain verification of a record at an
  // instant; `cacheOn` says whether there is a cache path.
  datatype Sdk = Sdk(verify: (Record, Instant) -> Option<License>, machineId: string, cacheOn: bool) {

    // `verify_and_validate`: the record passes the whole pipeline for this machine.
    predicate Accepts(rec: Record, now: Instant) {
      verify(rec, now).Some? && ValidateAt(verify(rec, now).value, machineId, now).Pass?
    }

    // `holds_activation` on a record that was read from the cache.
    predicate Names(rec: Record, activation: string, now: Instant) {
      verify(rec, now).Some? && verify(rec, now).value.activationId == activation
    }

    // The guard under which `check` offers a licence for background renewal.
    predicate Renewable(lic: License) {
      lic.machineId == machineId && lic.activationId != "" && lic.key != ""
    }
  }

  /******* The mutex-guarded record *******/

  datatype Renewal = Renewal(attempt: nat, inFlight: Option<Instant>, lastAttempt: Option<Instant>)

  const FRESH_RENEWAL := Renewal(0, None, None)

  // Whether `renew_in_background`, at clock reading `now`, starts a renewal.
  predicate Due(r: Renewal, now: Instant) {
    && !(r.inFlight.Some? && Since(now, r.inFlight.value) <= 2 * RENEW_RETRY)
    && !(r.lastAttempt.Some? && Since(now, r.lastAttempt.value) < RENEW_RETRY)
  }

  function Begin(r: Renewal, now: Instant): Renewal {
    Renewal(r.attempt + 1, Some(now), Some(now))
  }

  // `InFlight::drop` of background renewal number `attempt`.
  function Finish(r: Renewal, attempt: nat): Renewal {
    if r.attempt == attempt then r.(inFlight := None) else r
  }

  /******* Program counters *******/

  // What `check` carries from its verdict to its answer.
  datatype View = View(lic: License, now: Instant, verdict: Verdict)

  datatype CheckPc =
    | CheckLoad
    | CheckVerify(rec: Record)
    | CheckAge(view: View)
    | CheckTryLock(view: View, start: Instant)
    | CheckDecide(view: View, start: Instant)
    | CheckSpawn(view: View, job: Job)
    | CheckUnlock(view: View)
    | CheckAnswer(view: View)

  // What the network layer reports for one request.
  datatype Reply = Answered(rec: Record) | Unreachable | NotFound | Expired | WrongProject | OtherError

  predicate Rejects(reply: Reply) {
    reply.NotFound? || reply.Expired? || reply.WrongProject?
  }

  // A cache write: the record to save, with the clock reading at which it was accepted.
  datatype Write = Save(rec: Record, at: Instant) | Clear

  // The record `holds_activation` read, with the clock reading at which it verified.
  datatype Held = Held(rec: Record, at: Instant)

  // What follows a manual write: nothing, or the rest of `renew`.
  datatype After = Return | Note(activation: string, reply: Reply)

  // The calls that wait for the network: `activate`, `renew` and `deactivate`.
  datatype CallPc =
    | ActivateLoad(sanitized: string, normalized: string)
    | ActivateMatch(sanitized: string, normalized: string, rec: Record)
    | ActivatePost
    | RenewClock(activation: string)
    | RenewLock(activation: string, now: Instant)
    | RenewMark(activation: string, now: Instant)
    | RenewUnlock(activation: string)
    | RenewPost(activation: string)
    | NoteLock(activation: string, reply: Reply)
    | NoteRead(activation: string, reply: Reply)
    | NoteVerify(activation: string, reply: Reply, rec: Record)
    | NoteStore(activation: string, reply: Reply, held: Option<Held>)
    | NoteUnlock(reply: Reply)
    | DeactivatePost
    | AcceptAnswer(rec: Record)
    | WriteLock(write: Write, after: After)
    | WriteFlag(write: Write, after: After)
    | WriteDisk(write: Write, after: After)
    | WriteUnlock(after: After)

  // A background renewal: its number, the activation it renews and when it started.
  datatype Job = Job(attempt: nat, activation: string, start: Instant)

  // How a background renewal ended; `Fresh` has passed `verify_and_validate`.
  datatype Outcome = Fresh(rec: Record, at: Instant) | Rejected | NoNetwork | Failed

  datatype BackgroundPc =
    | BgPost(job: Job)
    | BgAccept(job: Job, rec: Record)
    | BgLock(job: Job, outcome: Outcome)
    | BgOwn(job: Job, outcome: Outcome)
    | BgRead(job: Job, outcome: Outcome)
    | BgVerify(job: Job, outcome: Outcome, rec: Record)
    | BgStore(job: Job, outcome: Outcome, held: Option<Held>)
    | BgDisk(job: Job, outcome: Outcome, found: Held)
    | BgUnlock(job: Job)
    | BgDropLock(job: Job)
    | BgDrop(job: Job)
    | BgDropUnlock(job: Job)

  datatype Pc = Idle | Checking(check: CheckPc) | Calling(call: CallPc) | Renewing(bg: BackgroundPc) | Gone

  predicate HoldsLock(pc: Pc) {
    match pc
    case Checking(c) => c.CheckDecide? || c.CheckSpawn? || c.CheckUnlock?
    case Calling(c) =>
      c.RenewMark? || c.RenewUnlock? || c.NoteRead? || c.NoteVerify? || c.NoteStore? || c.NoteUnlock?
      || c.WriteFlag? || c.WriteDisk? || c.WriteUnlock?
    case Renewing(b) =>
      b.BgOwn? || b.BgRead? || b.BgVerify? || b.BgStore? || b.BgDisk? || b.BgUnlock? || b.BgDrop? || b.BgDropUnlock?
    case _ => false
  }

  // The blocking lock requests. `CheckTryLock` is not one: it never waits.
  predicate WaitsForLock(pc: Pc) {
    match pc
    case Calling(c) => c.RenewLock? || c.NoteLock? || c.WriteLock?
    case Renewing(b) => b.BgLock? || b.BgDropLock?
    case _ => false
  }

  /******* States *******/

  datatype Shared = Shared(holder: Option<Tid>, renewal: Renewal, failed: bool, cache: Option<Record>, clock: Instant)

  datatype Answer = Licensed(lic: License, inGrace: bool) | NotActivated | LicenseExpired

  // What has happened so far, newest last.
  datatype Entry =
    | Began(attempt: nat, start: Instant)
    | Marked(now: Instant)
    | Noted(number: Option<nat>, activation: string, noNetwork: bool, held: Option<Held>)
    | Reset
    | BgWrote
    | Checked(loaded: bool, answer: Answer)

  datatype History = Nothing | Then(earlier: History, entry: Entry)

  // `past` is the set of all readings the clock has shown.
  datatype State = State(sh: Shared, threads: map<Tid, Pc>, past: set<Instant>, hist: History) {
    function Pc(t: Tid): Pc {
      if t in threads then threads[t] else Idle
    }
  }

  predicate Initial(s: State) {
    && s.sh.holder.None?
    && s.sh.renewal == FRESH_RENEWAL
    && !s.sh.failed
    && s.threads == map[]
    && s.past == {s.sh.clock}
    && s.hist == Nothing
  }

  /******* Steps *******/

  datatype Call =
    | Check
    | Activate(sanitized: string, normalized: string)
    | Renew(activation: string)
    | Deactivate

  datatype Choice =
    | Go
    | Invoke(call: Call)
    | Receive(reply: Reply)
    | Spawned(child: Tid)
    | SpawnFailed
    | Disk(works: bool)
    | Die

  // Every event is a jump of the clock or one step of one thread.
  datatype Event = Tick(now: Instant) | Run(t: Tid, choice: Choice)

  datatype Move =
    | Stuck
    | Move(pc: Pc, sh: Shared, child: Option<(Tid, Pc)>, entry: Option<Entry>)

  function To(pc: Pc, sh: Shared): Move { Move(pc, sh, None, None) }

  function Logged(pc: Pc, sh: Shared, e: Entry): Move { Move(pc, sh, None, Some(e)) }

  function Lock(sh: Shared, me: Tid, pc: Pc): Move {
    if sh.holder.None? then To(pc, sh.(holder := Some(me))) else Stuck
  }

  function Unlock(sh: Shared, pc: Pc): Move { To(pc, sh.(holder := None)) }

  // `storage::load`: nothing when there is no cache, no file, or the read fails.
  function Load(sdk: Sdk, sh: Shared, works: bool): Option<Record> {
    if sdk.cacheOn && works then sh.cache else None
  }

  // `storage::save` and `storage::clear`: a failure leaves the file as it was.
  function Stored(sdk: Sdk, sh: Shared, cache: Option<Record>, works: bool): Shared {
    if sdk.cacheOn && works then sh.(cache := cache) else sh
  }

  function InvokeMove(call: Call, sh: Shared): Move {
    match call
    case Check => To(Checking(CheckLoad), sh)
    case Activate(sanitized, normalized) =>
      if |normalized| == 0 || |normalized| > 256 then To(Idle, sh)
      else To(Calling(ActivateLoad(sanitized, normalized)), sh)
    case Renew(activation) => To(Calling(RenewClock(activation)), sh)
    case Deactivate => To(Calling(DeactivatePost), sh)
  }

  function AnswerOf(view: View, failed: bool): Answer {
    match view.verdict
    case Pass => Licensed(view.lic, InGracePeriod(view.lic, view.now, failed))
    case Fail(HardExpired) => LicenseExpired
    case Fail(_) => NotActivated
  }

  function CheckMove(sdk: Sdk, me: Tid, c: CheckPc, sh: Shared, ch: Choice): Move {
    match (c, ch)
    case (CheckLoad, Disk(works)) =>
      var rec := Load(sdk, sh, works);
      if rec.Some? then To(Checking(CheckVerify(rec.value)), sh)
      else Logged(Idle, sh, Checked(false, NotActivated))
    case (CheckVerify(rec), Go) =>
      var lic := sdk.verify(rec, sh.clock);
      if lic.None? then Logged(Idle, sh, Checked(true, NotActivated))
      else
        var view := View(lic.value, sh.clock, ValidateAt(lic.value, sdk.machineId, sh.clock));
        To(Checking(if sdk.Renewable(lic.value) then CheckAge(view) else CheckAnswer(view)), sh)
    case (CheckAge(view), Go) =>
      if Since(sh.clock, view.lic.issuedAt) < RENEW_AFTER then To(Checking(CheckAnswer(view)), sh)
      else To(Checking(CheckTryLock(view, sh.clock)), sh)
    case (CheckTryLock(view, start), Go) =>
      if sh.holder.Some? then To(Checking(CheckAnswer(view)), sh)
      else To(Checking(CheckDecide(view, start)), sh.(holder := Some(me)))
    case (CheckDecide(view, start), Go) =>
      if !Due(sh.renewal, start) then To(Checking(CheckUnlock(view)), sh)
      else
        var renewal := Begin(sh.renewal, start);
        Logged(Checking(CheckSpawn(view, Job(renewal.attempt, view.lic.activationId, start))),
               sh.(renewal := renewal), Began(renewal.attempt, start))
    case (CheckSpawn(view, job), Spawned(child)) =>
      Move(Checking(CheckUnlock(view)), sh, Some((child, Renewing(BgPost(job)))), None)
    case (CheckSpawn(view, job), SpawnFailed) =>
      To(Checking(CheckUnlock(view)), sh.(renewal := sh.renewal.(inFlight := None)))
    case (CheckUnlock(view), Go) => Unlock(sh, Checking(CheckAnswer(view)))
    case (CheckAnswer(view), Go) => Logged(Idle, sh, Checked(true, AnswerOf(view, sh.failed)))
    case _ => Stuck
  }

  // The body of `note_renewal`: the flag it stores for an outcome and what the cache held.
  predicate FlagFor(noNetwork: bool, held: Option<Held>) {
    noNetwork && held.Some?
  }

  // What `holds_activation` concludes from the record it read.
  function HeldIf(sdk: Sdk, rec: Record, activation: string, now: Instant): Option<Held> {
    if sdk.Names(rec, activation, now) then Some(Held(rec, now)) else None
  }

  predicate Matches(lic: License, sanitized: string, normalized: string) {
    lic.key == sanitized || (lic.alias != "" && lic.alias == normalized)
  }

  function ActivateMove(sdk: Sdk, c: CallPc, sh: Shared, ch: Choice): Move
    requires c.ActivateLoad? || c.ActivateMatch? || c.ActivatePost? || c.DeactivatePost? || c.AcceptAnswer?
  {
    match (c, ch)
    case (ActivateLoad(sanitized, normalized), Disk(works)) =>
      var rec := Load(sdk, sh, works);
      To(Calling(if rec.Some? then ActivateMatch(sanitized, normalized, rec.value) else ActivatePost), sh)
    case (ActivateMatch(sanitized, normalized, rec), Go) =>
      if sdk.Accepts(rec, sh.clock) && Matches(sdk.verify(rec, sh.clock).value, sanitized, normalized)
      then To(Idle, sh)
      else To(Calling(ActivatePost), sh)
    case (ActivatePost, Receive(reply)) =>
      if Rejects(reply) then To(Calling(WriteLock(Clear, Return)), sh)
      else if reply.Answered? then To(Calling(AcceptAnswer(reply.rec)), sh)
      else To(Idle, sh)
    case (AcceptAnswer(rec), Go) =>
      if sdk.Accepts(rec, sh.clock) then To(Calling(WriteLock(Save(rec, sh.clock), Return)), sh)
      else To(Idle, sh)
    case (DeactivatePost, Receive(reply)) =>
      if reply.Answered? then To(Calling(WriteLock(Clear, Return)), sh) else To(Idle, sh)
    case _ => Stuck
  }

  function RenewMove(sdk: Sdk, me: Tid, c: CallPc, sh: Shared, ch: Choice): Move
    requires c.RenewClock? || c.RenewLock? || c.RenewMark? || c.RenewUnlock? || c.RenewPost?
          || c.NoteLock? || c.NoteRead? || c.NoteVerify? || c.NoteStore? || c.NoteUnlock?
  {
    match (c, ch)
    case (RenewClock(activation), Go) => To(Calling(RenewLock(activation, sh.clock)), sh)
    case (RenewLock(activation, now), Go) => Lock(sh, me, Calling(RenewMark(activation, now)))
    case (RenewMark(activation, now), Go) =>
      Logged(Calling(RenewUnlock(activation)), sh.(renewal := sh.renewal.(lastAttempt := Some(now))), Marked(now))
    case (RenewUnlock(activation), Go) => Unlock(sh, Calling(RenewPost(activation)))
    case (RenewPost(activation), Receive(reply)) =>
      if Rejects(reply) then To(Calling(WriteLock(Clear, Note(activation, reply))), sh)
      else To(Calling(NoteLock(activation, reply)), sh)
    case (NoteLock(activation, reply), Go) => Lock(sh, me, Calling(NoteRead(activation, reply)))
    case (NoteRead(activation, reply), Disk(works)) =>
      var rec := Load(sdk, sh, works);
      To(Calling(if rec.Some? then NoteVerify(activation, reply, rec.value)
                 else NoteStore(activation, reply, None)), sh)
    case (NoteVerify(activation, reply, rec), Go) =>
      To(Calling(NoteStore(activation, reply, HeldIf(sdk, rec, activation, sh.clock))), sh)
    case (NoteStore(activation, reply, held), Go) =>
      Logged(Calling(NoteUnlock(reply)), sh.(failed := FlagFor(reply.Unreachable?, held)),
             Noted(None, activation, reply.Unreachable?, held))
    case (NoteUnlock(reply), Go) =>
      Unlock(sh, if reply.Answered? then Calling(AcceptAnswer(reply.rec)) else Idle)
    case _ => Stuck
  }

  // `save_to_cache` and `clear_cache`.
  function WriteMove(sdk: Sdk, me: Tid, c: CallPc, sh: Shared, ch: Choice): Move
    requires c.WriteLock? || c.WriteFlag? || c.WriteDisk? || c.WriteUnlock?
  {
    match (c, ch)
    case (WriteLock(write, after), Go) => Lock(sh, me, Calling(WriteFlag(write, after)))
    case (WriteFlag(write, after), Go) =>
      Logged(Calling(WriteDisk(write, after)), sh.(failed := false), Reset)
    case (WriteDisk(write, after), Disk(works)) =>
      To(Calling(WriteUnlock(after)), Stored(sdk, sh, if write.Save? then Some(write.rec) else None, works))
    case (WriteUnlock(after), Go) =>
      Unlock(sh, if after.Note? then Calling(NoteLock(after.activation, after.reply)) else Idle)
    case _ => Stuck
  }

  function OutcomeOf(reply: Reply): Outcome
    requires !reply.Answered?
  {
    if Rejects(reply) then Rejected else if reply.Unreachable? then NoNetwork else Failed
  }

  // `renew_and_store`, then the drop of its `InFlight`.
  function BackgroundMove(sdk: Sdk, me: Tid, b: BackgroundPc, sh: Shared, ch: Choice): Move {
    match (b, ch)
    case (BgPost(job), Receive(reply)) =>
      To(Renewing(if reply.Answered? then BgAccept(job, reply.rec) else BgLock(job, OutcomeOf(reply))), sh)
    case (BgPost(job), Die) => To(Renewing(BgDropLock(job)), sh)
    case (BgAccept(job, rec), Go) =>
      To(Renewing(BgLock(job, if sdk.Accepts(rec, sh.clock) then Fresh(rec, sh.clock) else Failed)), sh)
    case (BgLock(job, outcome), Go) => Lock(sh, me, Renewing(BgOwn(job, outcome)))
    case (BgOwn(job, outcome), Go) =>
      To(Renewing(if sh.renewal.attempt == job.attempt then BgRead(job, outcome) else BgUnlock(job)), sh)
    case (BgRead(job, outcome), Disk(works)) =>
      var rec := Load(sdk, sh, works);
      To(Renewing(if rec.Some? then BgVerify(job, outcome, rec.value) else BgStore(job, outcome, None)), sh)
    case (BgVerify(job, outcome, rec), Go) =>
      To(Renewing(BgStore(job, outcome, HeldIf(sdk, rec, job.activation, sh.clock))), sh)
    case (BgStore(job, outcome, held), Go) =>
      Logged(Renewing(if held.Some? then BgDisk(job, outcome, held.value) else BgUnlock(job)),
             sh.(failed := FlagFor(outcome.NoNetwork?, held)),
             Noted(Some(job.attempt), job.activation, outcome.NoNetwork?, held))
    case (BgDisk(job, outcome, found), Disk(works)) =>
      if outcome.Fresh? then
        Logged(Renewing(BgUnlock(job)), Stored(sdk, sh, Some(outcome.rec), works), BgWrote)
      else if outcome.Rejected? then
        Logged(Renewing(BgUnlock(job)), Stored(sdk, sh, None, works), BgWrote)
      else
        To(Renewing(BgUnlock(job)), sh)
    case (BgUnlock(job), Go) => Unlock(sh, Renewing(BgDropLock(job)))
    case (BgDropLock(job), Go) => Lock(sh, me, Renewing(BgDrop(job)))
    case (BgDrop(job), Go) => To(Renewing(BgDropUnlock(job)), sh.(renewal := Finish(sh.renewal, job.attempt)))
    case (BgDropUnlock(job), Go) => Unlock(sh, Gone)
    case _ => Stuck
  }

  function ThreadMove(sdk: Sdk, me: Tid, pc: Pc, sh: Shared, ch: Choice): Move {
    match pc
    case Idle => if ch.Invoke? then InvokeMove(ch.call, sh) else Stuck
    case Checking(c) => CheckMove(sdk, me, c, sh, ch)
    case Calling(c) =>
      if c.WriteLock? || c.WriteFlag? || c.WriteDisk? || c.WriteUnlock? then WriteMove(sdk, me, c, sh, ch)
      else if c.ActivateLoad? || c.ActivateMatch? || c.ActivatePost? || c.DeactivatePost? || c.AcceptAnswer?
      then ActivateMove(sdk, c, sh, ch)
      else RenewMove(sdk, me, c, sh, ch)
    case Renewing(b) => BackgroundMove(sdk, me, b, sh, ch)
    case Gone => Stuck
  }

  function Noting(h: History, e: Option<Entry>): History {
    if e.Some? then Then(h, e.value) else h
  }

  function Next(sdk: Sdk, s: State, e: Event): Option<State> {
    match e
    case Tick(now) => Some(s.(sh := s.sh.(clock := now), past := s.past + {now}))
    case Run(t, ch) =>
      var m := ThreadMove(sdk, t, s.Pc(t), s.sh, ch);
      if m.Stuck? then None
      else if m.child.None? then Some(State(m.sh, s.threads[t := m.pc], s.past, Noting(s.hist, m.entry)))
      else if m.child.value.0 == t || m.child.value.0 in s.threads then None
      else Some(State(m.sh, s.threads[t := m.pc][m.child.value.0 := m.child.value.1], s.past, Noting(s.hist, m.entry)))
  }

  // A run state by state: event `es[k]` takes `ss[k]` to `ss[k + 1]`.
  ghost predicate Behaviour(sdk: Sdk, ss: seq<State>, es: seq<Event>) {
    |ss| == |es| + 1 && forall k {:trigger es[k]} :: 0 <= k < |es| ==> Next(sdk, ss[k], es[k]) == Some(ss[k + 1])
  }

  // The state after a sequence of events, when every one of them is possible in turn.
  function Exec(sdk: Sdk, s: State, es: seq<Event>): Option<State>
    decreases |es|
  {
    if es == [] then Some(s)
    else
      var s' := Next(sdk, s, es[0]);
      if s'.None? then None else Exec(sdk, s'.value, es[1..])
  }

  // The two forms of a run agree.
  lemma {:induction false} BehavioursAreRuns(sdk: Sdk, ss: seq<State>, es: seq<Event>)
    requires Behaviour(sdk, ss, es)
    ensures Exec(sdk, ss[0], es) == Some(ss[|es|])
    decreases |es|
  {
    if es == [] {
    } else {
      assert Next(sdk, ss[0], es[0]) == Some(ss[0 + 1]);
      forall k | 0 <= k < |es[1..]| ensures Next(sdk, ss[1..][k], es[1..][k]) == Some(ss[1..][k + 1]) {
        assert Next(sdk, ss[k + 1], es[k + 1]) == Some(ss[k + 2]);
      }
      BehavioursAreRuns(sdk, ss[1..], es[1..]);
    }
  }

  lemma {:induction false} RunsAreBehaviours(sdk: Sdk, s: State, es: seq<Event>) returns (ss: seq<State>)
    requires Exec(sdk, s, es).Some?
    ensures Behaviour(sdk, ss, es) && ss[0] == s && ss[|es|] == Exec(sdk, s, es).value
    decreases |es|
  {
    if es == [] {
      ss := [s];
    } else {
      var rest := RunsAreBehaviours(sdk, Next(sdk, s, es[0]).value, es[1..]);
      ss := [s] + rest;
      forall k | 0 <= k < |es| ensures Next(sdk, ss[k], es[k]) == Some(ss[k + 1]) {
        if k > 0 {
          assert Next(sdk, rest[k - 1], es[1..][k - 1]) == Some(rest[k]);
        }
      }
    }
  }
}
