/** How far apart renewal attempts start. */
module Spacing {
  import opened Wrappers
  import opened Time
  import opened Protocol
  import opened LockDiscipline
  import opened Ownership

  /******* What the history says *******/

  // The start of the last attempt, background or manual.
  function LastAttempt(h: History): Option<Instant> {
    match h
    case Nothing => None
    case Then(_, Began(_, start)) => Some(start)
    case Then(_, Marked(now)) => Some(now)
    case Then(p, _) => LastAttempt(p)
  }

  // The start of the last background renewal.
  function LastStart(h: History): Option<Instant> {
    match h
    case Nothing => None
    case Then(_, Began(_, start)) => Some(start)
    case Then(p, _) => LastStart(p)
  }

  // Every attempt, background or manual, started at `bound` or earlier.
  ghost predicate AllBy(h: History, bound: Instant) {
    match h
    case Nothing => true
    case Then(p, Began(_, start)) => start <= bound && AllBy(p, bound)
    case Then(p, Marked(now)) => now <= bound && AllBy(p, bound)
    case Then(p, _) => AllBy(p, bound)
  }

  // Every background renewal started at least five minutes after every attempt before it.
  ghost predicate Spaced(h: History) {
    match h
    case Nothing => true
    case Then(p, Began(_, start)) => Spaced(p) && AllBy(p, start - FIVE_MINUTES)
    case Then(p, _) => Spaced(p)
  }

  // How many background renewals started in the window from `a` to `b`.
  function StartsWithin(h: History, a: Instant, b: Instant): nat {
    match h
    case Nothing => 0
    case Then(p, Began(_, start)) => StartsWithin(p, a, b) + if a <= start <= b then 1 else 0
    case Then(p, _) => StartsWithin(p, a, b)
  }

  lemma {:induction false} AllByWeakens(h: History, b: Instant, b': Instant)
    requires AllBy(h, b) && b <= b'
    ensures AllBy(h, b')
  {
    match h
    case Nothing =>
    case Then(p, _) => AllByWeakens(p, b, b');
  }

  lemma {:induction false} NarrowWindow(h: History, a: Instant, b: Instant, c: Instant)
    requires AllBy(h, c) && c <= b
    ensures StartsWithin(h, a, b) == StartsWithin(h, a, c)
  {
    match h
    case Nothing =>
    case Then(p, _) => NarrowWindow(p, a, b, c);
  }

  lemma {:induction false} EmptyWindow(h: History, a: Instant, b: Instant)
    requires b < a
    ensures StartsWithin(h, a, b) == 0
  {
    match h
    case Nothing =>
    case Then(p, _) => EmptyWindow(p, a, b);
  }

  // A window of length T holds at most T / 300 s + 1 background starts.
  lemma {:induction false} FewStartsInAWindow(h: History, a: Instant, b: Instant)
    requires Spaced(h) && a <= b
    ensures StartsWithin(h, a, b) <= (b - a) / FIVE_MINUTES + 1
  {
    match h
    case Nothing =>
    case Then(p, Began(_, start)) =>
      if a <= start <= b {
        NarrowWindow(p, a, b, start - FIVE_MINUTES);
        if a <= start - FIVE_MINUTES {
          FewStartsInAWindow(p, a, start - FIVE_MINUTES);
        } else {
          EmptyWindow(p, a, start - FIVE_MINUTES);
        }
      } else {
        FewStartsInAWindow(p, a, b);
      }
    case Then(p, _) =>
      FewStartsInAWindow(p, a, b);
  }

  /******* Invariants *******/

  // The record agrees with the history, whatever the clock does.
  ghost predicate BookInv(s: State) {
    && s.sh.renewal.lastAttempt == LastAttempt(s.hist)
    && (s.sh.renewal.inFlight.Some? ==> s.sh.renewal.inFlight == LastStart(s.hist))
  }

  predicate Settled(r: Renewal, pc: Pc) {
    LiveJob(pc).Some? ==>
      var job := LiveJob(pc).value;
      && r.lastAttempt.Some?
      && (job.attempt < r.attempt ==> job.start + TEN_MINUTES < r.lastAttempt.value)
      && (job.attempt == r.attempt ==> job.start <= r.lastAttempt.value)
  }

  // Of two live renewals the later one started more than ten minutes after the earlier one.
  predicate FarApart(p: Pc, q: Pc) {
    LiveJob(p).Some? && LiveJob(q).Some? && LiveJob(p).value.attempt < LiveJob(q).value.attempt ==>
      LiveJob(p).value.start + TEN_MINUTES < LiveJob(q).value.start
  }

  ghost predicate SpacingInv(s: State) {
    && (s.sh.renewal.lastAttempt.Some? ==> AllBy(s.hist, s.sh.renewal.lastAttempt.value))
    && Spaced(s.hist)
    && (forall t: Tid :: Settled(s.sh.renewal, s.Pc(t)))
    && (forall t: Tid, u: Tid :: FarApart(s.Pc(t), s.Pc(u)))
  }

  predicate MarksNow(s: State, e: Event) {
    e.Run? && s.Pc(e.t).Calling? && s.Pc(e.t).call.RenewMark?
  }

  // A manual `renew` is about to write a clock reading that is no older than the attempt on record.
  // The other steps are not concerned.
  predicate FreshMark(s: State, e: Event) {
    MarksNow(s, e) && s.sh.renewal.lastAttempt.Some? ==> s.sh.renewal.lastAttempt.value <= s.Pc(e.t).call.now
  }

  ghost predicate FreshMarks(sdk: Sdk, s: State, es: seq<Event>)
    decreases |es|
  {
    es == [] || (FreshMark(s, es[0])
                 && (Next(sdk, s, es[0]).Some? ==> FreshMarks(sdk, Next(sdk, s, es[0]).value, es[1..])))
  }

  // What a step can write into the book.
  lemma MoveBooks(sdk: Sdk, t: Tid, pc: Pc, sh: Shared, h: History, ch: Choice)
    requires ThreadMove(sdk, t, pc, sh, ch).Move?
    ensures var m := ThreadMove(sdk, t, pc, sh, ch); var h' := Noting(h, m.entry);
            if KindOf(pc, sh, ch) == Begins then
              m.entry == Some(Began(m.sh.renewal.attempt, LiveJob(m.pc).value.start))
            else if pc.Calling? && pc.call.RenewMark? then
              m.entry == Some(Marked(pc.call.now)) && m.sh.renewal == sh.renewal.(lastAttempt := Some(pc.call.now))
            else
              && m.sh.renewal.lastAttempt == sh.renewal.lastAttempt
              && (m.entry.Some? ==> !m.entry.value.Began? && !m.entry.value.Marked?)
  {
    match pc
    case Checking(c) =>
    case Calling(c) =>
    case Renewing(b) =>
    case _ =>
  }

  lemma NextKeepsBookInv(sdk: Sdk, s: State, e: Event)
    requires BookInv(s) && Next(sdk, s, e).Some?
    ensures BookInv(Next(sdk, s, e).value)
  {
    if e.Run? {
      MoveBooks(sdk, e.t, s.Pc(e.t), s.sh, s.hist, e.choice);
      MoveKind(sdk, e.t, s.Pc(e.t), s.sh, e.choice);
    }
  }

  lemma NextKeepsSpaced(sdk: Sdk, s: State, e: Event)
    requires BookInv(s) && SpacingInv(s) && FreshMark(s, e) && Next(sdk, s, e).Some?
    ensures var s' := Next(sdk, s, e).value;
            Spaced(s'.hist) && (s'.sh.renewal.lastAttempt.Some? ==> AllBy(s'.hist, s'.sh.renewal.lastAttempt.value))
  {
    var s' := Next(sdk, s, e).value;
    if e.Run? {
      MoveBooks(sdk, e.t, s.Pc(e.t), s.sh, s.hist, e.choice);
      MoveKind(sdk, e.t, s.Pc(e.t), s.sh, e.choice);
      NoAttempts(s.hist);
      if s.sh.renewal.lastAttempt.Some? && s'.sh.renewal.lastAttempt.Some? {
        var last, last' := s.sh.renewal.lastAttempt.value, s'.sh.renewal.lastAttempt.value;
        AllByWeakens(s.hist, last, last');
        if KindOf(s.Pc(e.t), s.sh, e.choice) == Begins {
          AllByWeakens(s.hist, last, last' - FIVE_MINUTES);
        }
      }
    }
  }

  lemma {:induction false} NoAttempts(h: History)
    ensures LastAttempt(h).None? ==> forall x :: AllBy(h, x)
  {
    match h
    case Nothing =>
    case Then(p, _) => NoAttempts(p);
  }

  // A live renewal after a step was live before it, on some thread, unless the step began it.
  lemma JobsStayLive(sdk: Sdk, s: State, t: Tid, ch: Choice, u: Tid) returns (o: Tid)
    requires Next(sdk, s, Run(t, ch)).Some? && LiveJob(Next(sdk, s, Run(t, ch)).value.Pc(u)).Some?
    ensures if KindOf(s.Pc(t), s.sh, ch) == Begins && u == t then true
            else LiveJob(s.Pc(o)) == LiveJob(Next(sdk, s, Run(t, ch)).value.Pc(u))
  {
    MoveKind(sdk, t, s.Pc(t), s.sh, ch);
    var m := ThreadMove(sdk, t, s.Pc(t), s.sh, ch);
    o := if m.child.Some? && m.child.value.0 == u then t else u;
  }

  // One that is due starts more than ten minutes after every live one.
  lemma DueIsFarFromLive(r: Renewal, pc: Pc, now: Instant)
    requires Numbered(r, pc) && Settled(r, pc) && LiveJob(pc).Some? && Due(r, now)
    ensures LiveJob(pc).value.attempt <= r.attempt && LiveJob(pc).value.start + TEN_MINUTES < now
  {
  }

  lemma StepKeepsSettled(sdk: Sdk, s: State, t: Tid, ch: Choice, u: Tid)
    requires OwnershipInv(s) && SpacingInv(s) && FreshMark(s, Run(t, ch)) && Next(sdk, s, Run(t, ch)).Some?
    requires LiveJob(Next(sdk, s, Run(t, ch)).value.Pc(u)).Some?
    ensures var s' := Next(sdk, s, Run(t, ch)).value; Settled(s'.sh.renewal, s'.Pc(u))
  {
    var begins := KindOf(s.Pc(t), s.sh, ch) == Begins;
    MoveBooks(sdk, t, s.Pc(t), s.sh, s.hist, ch);
    MoveKind(sdk, t, s.Pc(t), s.sh, ch);
    if !(begins && u == t) {
      var o := JobsStayLive(sdk, s, t, ch, u);
      assert Settled(s.sh.renewal, s.Pc(o)) && Numbered(s.sh.renewal, s.Pc(o));
      if begins {
        DueIsFarFromLive(s.sh.renewal, s.Pc(o), LiveJob(Next(sdk, s, Run(t, ch)).value.Pc(t)).value.start);
      }
    }
  }

  lemma NextKeepsSettled(sdk: Sdk, s: State, e: Event)
    requires OwnershipInv(s) && SpacingInv(s) && FreshMark(s, e) && Next(sdk, s, e).Some?
    ensures var s' := Next(sdk, s, e).value; forall u: Tid :: Settled(s'.sh.renewal, s'.Pc(u))
  {
    var s' := Next(sdk, s, e).value;
    forall u: Tid ensures Settled(s'.sh.renewal, s'.Pc(u)) {
      if e.Tick? {
        assert Settled(s.sh.renewal, s.Pc(u));
      } else if LiveJob(s'.Pc(u)).Some? {
        StepKeepsSettled(sdk, s, e.t, e.choice, u);
      }
    }
  }

  lemma BegunIsFarApart(sdk: Sdk, s: State, t: Tid, ch: Choice, u: Tid)
    requires OwnershipInv(s) && SpacingInv(s) && Next(sdk, s, Run(t, ch)).Some?
    requires KindOf(s.Pc(t), s.sh, ch) == Begins
    ensures var s' := Next(sdk, s, Run(t, ch)).value;
            FarApart(s'.Pc(t), s'.Pc(u)) && FarApart(s'.Pc(u), s'.Pc(t))
  {
    var s' := Next(sdk, s, Run(t, ch)).value;
    MoveKind(sdk, t, s.Pc(t), s.sh, ch);
    if u != t && LiveJob(s'.Pc(u)).Some? {
      assert Numbered(s.sh.renewal, s.Pc(u)) && Settled(s.sh.renewal, s.Pc(u));
      DueIsFarFromLive(s.sh.renewal, s.Pc(u), LiveJob(s'.Pc(t)).value.start);
    }
  }

  lemma NextKeepsFarApart(sdk: Sdk, s: State, e: Event)
    requires OwnershipInv(s) && SpacingInv(s) && Next(sdk, s, e).Some?
    ensures var s' := Next(sdk, s, e).value; forall u: Tid, v: Tid :: FarApart(s'.Pc(u), s'.Pc(v))
  {
    var s' := Next(sdk, s, e).value;
    forall u: Tid, v: Tid ensures FarApart(s'.Pc(u), s'.Pc(v)) {
      if e.Tick? {
        assert FarApart(s.Pc(u), s.Pc(v));
      } else if LiveJob(s'.Pc(u)).Some? && LiveJob(s'.Pc(v)).Some? {
        StepKeepsFarApart(sdk, s, e.t, e.choice, u, v);
      }
    }
  }

  lemma StepKeepsFarApart(sdk: Sdk, s: State, t: Tid, ch: Choice, u: Tid, v: Tid)
    requires OwnershipInv(s) && SpacingInv(s) && Next(sdk, s, Run(t, ch)).Some?
    requires LiveJob(Next(sdk, s, Run(t, ch)).value.Pc(u)).Some? && LiveJob(Next(sdk, s, Run(t, ch)).value.Pc(v)).Some?
    ensures var s' := Next(sdk, s, Run(t, ch)).value; FarApart(s'.Pc(u), s'.Pc(v))
  {
    var begins := KindOf(s.Pc(t), s.sh, ch) == Begins;
    if begins && u == t {
      BegunIsFarApart(sdk, s, t, ch, v);
    } else if begins && v == t {
      BegunIsFarApart(sdk, s, t, ch, u);
    } else {
      var o := JobsStayLive(sdk, s, t, ch, u);
      var p := JobsStayLive(sdk, s, t, ch, v);
      assert FarApart(s.Pc(o), s.Pc(p));
    }
  }

  lemma {:induction false} ExecKeepsSpacing(sdk: Sdk, s: State, es: seq<Event>)
    requires LockInv(s) && OwnershipInv(s) && BookInv(s) && SpacingInv(s)
    requires Exec(sdk, s, es).Some? && FreshMarks(sdk, s, es)
    ensures SpacingInv(Exec(sdk, s, es).value)
    decreases |es|
  {
    if es == [] {
    } else {
      NextKeepsLockInv(sdk, s, es[0]);
      NextKeepsOwnershipInv(sdk, s, es[0]);
      NextKeepsBookInv(sdk, s, es[0]);
      NextKeepsSpaced(sdk, s, es[0]);
      NextKeepsSettled(sdk, s, es[0]);
      NextKeepsFarApart(sdk, s, es[0]);
      ExecKeepsSpacing(sdk, Next(sdk, s, es[0]).value, es[1..]);
    }
  }

  /******* What follows for every run *******/

  // On every run in which no manual `renew` writes a reading older than the attempt on record, and
  // for any clock: every background renewal starts at least five minutes after every earlier attempt,
  // background or manual; any window of length T holds at most T / 300 s + 1 background starts; and
  // of two background renewals live at the same time the later one started more than ten minutes
  // after the earlier one, spawn failures and takeovers included.
  lemma StartsAreSpaced(sdk: Sdk, origin: State, es: seq<Event>)
    requires Initial(origin) && Exec(sdk, origin, es).Some? && FreshMarks(sdk, origin, es)
    ensures var s := Exec(sdk, origin, es).value;
            && Spaced(s.hist)
            && (forall a: Instant, b: Instant :: a <= b ==> StartsWithin(s.hist, a, b) <= (b - a) / FIVE_MINUTES + 1)
            && (forall t: Tid, u: Tid :: FarApart(s.Pc(t), s.Pc(u)))
  {
    ExecKeepsSpacing(sdk, origin, es);
    var s := Exec(sdk, origin, es).value;
    forall a: Instant, b: Instant | a <= b ensures StartsWithin(s.hist, a, b) <= (b - a) / FIVE_MINUTES + 1 {
      FewStartsInAWindow(s.hist, a, b);
    }
  }

  /******* Runs without a manual renew *******/

  predicate CallsRenew(e: Event) {
    e.Run? && e.choice.Invoke? && e.choice.call.Renew?
  }

  predicate BeforeMark(pc: Pc) {
    pc.Calling? && (pc.call.RenewClock? || pc.call.RenewLock? || pc.call.RenewMark?)
  }

  lemma OnlyRenewMarks(sdk: Sdk, t: Tid, pc: Pc, sh: Shared, ch: Choice)
    requires ThreadMove(sdk, t, pc, sh, ch).Move? && !BeforeMark(pc) && !CallsRenew(Run(t, ch))
    ensures !BeforeMark(ThreadMove(sdk, t, pc, sh, ch).pc)
  {
    match pc
    case Checking(c) =>
    case Calling(c) =>
    case Renewing(b) =>
    case _ =>
  }

  lemma {:induction false} NoRenewNoMarks(sdk: Sdk, s: State, es: seq<Event>)
    requires forall t: Tid :: !BeforeMark(s.Pc(t))
    requires forall e :: e in es ==> !CallsRenew(e)
    ensures FreshMarks(sdk, s, es)
    decreases |es|
  {
    if es == [] {
    } else {
      assert es[0].Run? ==> !BeforeMark(s.Pc(es[0].t));
      if Next(sdk, s, es[0]).Some? {
        if es[0].Run? {
          OnlyRenewMarks(sdk, es[0].t, s.Pc(es[0].t), s.sh, es[0].choice);
          MoveKind(sdk, es[0].t, s.Pc(es[0].t), s.sh, es[0].choice);
        }
        var s' := Next(sdk, s, es[0]).value;
        forall u: Tid ensures !BeforeMark(s'.Pc(u)) {
          assert !BeforeMark(s.Pc(u));
        }
        NoRenewNoMarks(sdk, s', es[1..]);
      }
    }
  }

  // Without manual renewals the spacing needs nothing of the clock, not even that it moves forward.
  lemma SpacingWithoutManualRenew(sdk: Sdk, origin: State, es: seq<Event>)
    requires Initial(origin) && Exec(sdk, origin, es).Some?
    requires forall e :: e in es ==> !CallsRenew(e)
    ensures var s := Exec(sdk, origin, es).value;
            Spaced(s.hist) && forall t: Tid, u: Tid :: FarApart(s.Pc(t), s.Pc(u))
  {
    NoRenewNoMarks(sdk, origin, es);
    StartsAreSpaced(sdk, origin, es);
  }

  /******* Runs with manual renews and a clock that never goes back *******/

  // The clock does not go back, and a manual `renew` writes a reading the clock still shows, as it
  // does when its clock read and its write are one step.
  predicate Orderly(s: State, e: Event) {
    && (e.Tick? ==> s.sh.clock <= e.now)
    && (MarksNow(s, e) ==> s.Pc(e.t).call.now == s.sh.clock)
  }

  ghost predicate OrderlyRun(sdk: Sdk, s: State, es: seq<Event>)
    decreases |es|
  {
    es == [] || (Orderly(s, es[0])
                 && (Next(sdk, s, es[0]).Some? ==> OrderlyRun(sdk, Next(sdk, s, es[0]).value, es[1..])))
  }

  predicate ReadBy(clock: Instant, pc: Pc) {
    pc.Checking? && (pc.check.CheckTryLock? || pc.check.CheckDecide?) ==> pc.check.start <= clock
  }

  ghost predicate ClockInv(s: State) {
    && (s.sh.renewal.lastAttempt.Some? ==> s.sh.renewal.lastAttempt.value <= s.sh.clock)
    && forall t: Tid :: ReadBy(s.sh.clock, s.Pc(t))
  }

  lemma MoveReadsTheClock(sdk: Sdk, t: Tid, pc: Pc, sh: Shared, ch: Choice)
    requires ThreadMove(sdk, t, pc, sh, ch).Move? && ReadBy(sh.clock, pc)
    ensures var m := ThreadMove(sdk, t, pc, sh, ch);
            && ReadBy(sh.clock, m.pc) && m.sh.clock == sh.clock
            && (KindOf(pc, sh, ch) == Begins ==> LiveJob(m.pc).value.start <= sh.clock)
  {
    match pc
    case Checking(c) =>
    case Calling(c) =>
    case Renewing(b) =>
    case _ =>
  }

  lemma NextKeepsClockInv(sdk: Sdk, s: State, e: Event)
    requires ClockInv(s) && Orderly(s, e) && Next(sdk, s, e).Some?
    ensures ClockInv(Next(sdk, s, e).value)
  {
    var s' := Next(sdk, s, e).value;
    if e.Run? {
      assert ReadBy(s.sh.clock, s.Pc(e.t));
      MoveReadsTheClock(sdk, e.t, s.Pc(e.t), s.sh, e.choice);
      MoveBooks(sdk, e.t, s.Pc(e.t), s.sh, s.hist, e.choice);
      MoveKind(sdk, e.t, s.Pc(e.t), s.sh, e.choice);
    }
    forall u: Tid ensures ReadBy(s'.sh.clock, s'.Pc(u)) {
      assert ReadBy(s.sh.clock, s.Pc(u));
    }
  }

  lemma {:induction false} OrderlyMarksAreFresh(sdk: Sdk, s: State, es: seq<Event>)
    requires ClockInv(s) && OrderlyRun(sdk, s, es)
    ensures FreshMarks(sdk, s, es)
    decreases |es|
  {
    if es == [] || Next(sdk, s, es[0]).None? {
    } else {
      NextKeepsClockInv(sdk, s, es[0]);
      OrderlyMarksAreFresh(sdk, Next(sdk, s, es[0]).value, es[1..]);
    }
  }

  // With manual renewals in the run, the same holds under a clock that never goes back when each
  // manual attempt's reading is current at its write.
  lemma SpacingUnderAForwardClock(sdk: Sdk, origin: State, es: seq<Event>)
    requires Initial(origin) && Exec(sdk, origin, es).Some? && OrderlyRun(sdk, origin, es)
    ensures var s := Exec(sdk, origin, es).value;
            Spaced(s.hist) && forall t: Tid, u: Tid :: FarApart(s.Pc(t), s.Pc(u))
  {
    OrderlyMarksAreFresh(sdk, origin, es);
    StartsAreSpaced(sdk, origin, es);
  }

  /******* Exactly when the next start keeps its distance *******/

  lemma {:induction false} ExecKeepsBook(sdk: Sdk, s: State, es: seq<Event>)
    requires BookInv(s) && Exec(sdk, s, es).Some?
    ensures BookInv(Exec(sdk, s, es).value)
    decreases |es|
  {
    if es == [] {
    } else {
      NextKeepsBookInv(sdk, s, es[0]);
      ExecKeepsBook(sdk, Next(sdk, s, es[0]).value, es[1..]);
    }
  }

  // The next background renewal is certain to keep its distance, five minutes, from every attempt there
  // has been, background or manual.
  ghost predicate NextStartIsSpaced(s: State) {
    forall now: Instant :: Due(s.sh.renewal, now) ==> AllBy(s.hist, now - FIVE_MINUTES)
  }

  // The time on record is no older than any attempt; or there is none; or the renewal marked in flight
  // holds the next one up for long enough.
  ghost predicate RecordIsCurrent(s: State) {
    var r := s.sh.renewal;
    || r.lastAttempt.None?
    || AllBy(s.hist, r.lastAttempt.value)
    || (r.inFlight.Some? && AllBy(s.hist, r.inFlight.value + FIVE_MINUTES + 1))
  }

  // The first clock reading at which a renewal is due.
  function FirstDue(r: Renewal): Instant
    requires r.lastAttempt.Some?
  {
    var retry := r.lastAttempt.value + FIVE_MINUTES;
    if r.inFlight.Some? && retry <= r.inFlight.value + TEN_MINUTES then r.inFlight.value + TEN_MINUTES + 1
    else retry
  }

  lemma DueFromFirstDue(r: Renewal, now: Instant)
    requires r.lastAttempt.Some?
    ensures Due(r, now) <==> FirstDue(r) <= now
  {
  }

  // At any point of any run, whatever the clock and the manual renewals have done: the next background
  // renewal is certain to start at least five minutes after every earlier attempt exactly when the
  // record is current.
  lemma {:induction false} NextStartIsSpacedIff(sdk: Sdk, origin: State, es: seq<Event>)
    requires Initial(origin) && Exec(sdk, origin, es).Some?
    ensures var s := Exec(sdk, origin, es).value; NextStartIsSpaced(s) <==> RecordIsCurrent(s)
  {
    ExecKeepsBook(sdk, origin, es);
    var s := Exec(sdk, origin, es).value;
    var r := s.sh.renewal;
    NoAttempts(s.hist);
    if r.lastAttempt.Some? {
      var first := FirstDue(r);
      DueFromFirstDue(r, first);
      if NextStartIsSpaced(s) {
        assert AllBy(s.hist, first - FIVE_MINUTES);
      }
      if RecordIsCurrent(s) {
        BoundReached(s.hist, r);
        forall now: Instant | Due(r, now) ensures AllBy(s.hist, now - FIVE_MINUTES) {
          DueFromFirstDue(r, now);
          AllByWeakens(s.hist, first - FIVE_MINUTES, now - FIVE_MINUTES);
        }
      }
    }
  }

  lemma {:induction false} BoundReached(h: History, r: Renewal)
    requires r.lastAttempt.Some?
    requires AllBy(h, r.lastAttempt.value) || (r.inFlight.Some? && AllBy(h, r.inFlight.value + FIVE_MINUTES + 1))
    ensures AllBy(h, FirstDue(r) - FIVE_MINUTES)
  {
    var bound := FirstDue(r) - FIVE_MINUTES;
    if AllBy(h, r.lastAttempt.value) {
      AllByWeakens(h, r.lastAttempt.value, bound);
    } else {
      AllByWeakens(h, r.inFlight.value + FIVE_MINUTES + 1, bound);
    }
  }

  // So while the record is current, no step can break the spacing of a run.
  lemma {:induction false} CurrentRecordsKeepSpacing(sdk: Sdk, origin: State, es: seq<Event>, e: Event)
    requires Initial(origin) && Exec(sdk, origin, es).Some?
    requires Spaced(Exec(sdk, origin, es).value.hist) && RecordIsCurrent(Exec(sdk, origin, es).value)
    requires Next(sdk, Exec(sdk, origin, es).value, e).Some?
    ensures Spaced(Next(sdk, Exec(sdk, origin, es).value, e).value.hist)
  {
    NextStartIsSpacedIff(sdk, origin, es);
    var s := Exec(sdk, origin, es).value;
    if e.Run? {
      MoveBooks(sdk, e.t, s.Pc(e.t), s.sh, s.hist, e.choice);
      MoveKind(sdk, e.t, s.Pc(e.t), s.sh, e.choice);
    }
  }

  /******* Exactly when the next renewal is far from the live ones *******/

  // The next background renewal is certain to start more than ten minutes after every live one.
  ghost predicate NextRenewalIsFarApart(s: State) {
    forall now: Instant, t: Tid :: Due(s.sh.renewal, now) && LiveJob(s.Pc(t)).Some? ==>
      LiveJob(s.Pc(t)).value.start + TEN_MINUTES < now
  }

  // Every live renewal started more than ten minutes before the first reading at which the next is due.
  ghost predicate LiveRenewalsAreOld(s: State) {
    forall t: Tid :: LiveJob(s.Pc(t)).Some? ==>
      && s.sh.renewal.lastAttempt.Some?
      && LiveJob(s.Pc(t)).value.start + TEN_MINUTES < FirstDue(s.sh.renewal)
  }

  lemma {:induction false} StartsAreAttempts(h: History)
    ensures LastStart(h).Some? ==> LastAttempt(h).Some?
  {
    match h
    case Nothing =>
    case Then(p, _) => StartsAreAttempts(p);
  }

  // At any point of any run: the next background renewal is certain to be more than ten minutes from
  // every live one exactly when the live ones are old.
  lemma {:induction false} NextRenewalIsFarApartIff(sdk: Sdk, origin: State, es: seq<Event>)
    requires Initial(origin) && Exec(sdk, origin, es).Some?
    ensures var s := Exec(sdk, origin, es).value; NextRenewalIsFarApart(s) <==> LiveRenewalsAreOld(s)
  {
    ExecKeepsBook(sdk, origin, es);
    var s := Exec(sdk, origin, es).value;
    var r := s.sh.renewal;
    StartsAreAttempts(s.hist);
    if NextRenewalIsFarApart(s) {
      forall t: Tid | LiveJob(s.Pc(t)).Some?
        ensures r.lastAttempt.Some? && LiveJob(s.Pc(t)).value.start + TEN_MINUTES < FirstDue(r)
      {
        if r.lastAttempt.Some? {
          DueFromFirstDue(r, FirstDue(r));
        } else {
          assert Due(r, LiveJob(s.Pc(t)).value.start);
        }
      }
    }
    if LiveRenewalsAreOld(s) {
      forall now: Instant, t: Tid | Due(r, now) && LiveJob(s.Pc(t)).Some?
        ensures LiveJob(s.Pc(t)).value.start + TEN_MINUTES < now
      {
        DueFromFirstDue(r, now);
      }
    }
  }
}
