/** `activate`, `renew` and `deactivate` as whole calls (src/http.rs): what each leaves behind for each
    answer of the server when nothing comes between its steps. */
module Calls {
  import opened Wrappers
  import opened Time
  import opened Domain
  import opened Protocol
  import opened CriticalSections
  import opened Progress

  /******* Effects *******/

  // What a cache write leaves in the cache: nothing changes without a cache path or when it fails.
  function Written(sdk: Sdk, cache: Option<Record>, content: Option<Record>, writeOk: bool): Option<Record> {
    if sdk.cacheOn && writeOk then content else cache
  }

  // An accepted answer replaces the cache, a rejection empties it, anything else leaves it. The flag is
  // cleared with the write, whether or not the write works.
  function ActivateEffect(sdk: Sdk, sh: Shared, reply: Reply, writeOk: bool): (sh': Shared)
    ensures sh'.renewal == sh.renewal && sh'.clock == sh.clock && sh'.holder == sh.holder
    ensures reply.NotFound? || reply.Expired? || reply.WrongProject? ==>
              sh'.cache == Written(sdk, sh.cache, None, writeOk) && !sh'.failed
    ensures reply.Answered? && sdk.Accepts(reply.rec, sh.clock) ==>
              sh'.cache == Written(sdk, sh.cache, Some(reply.rec), writeOk) && !sh'.failed
    ensures !Rejects(reply) && !(reply.Answered? && sdk.Accepts(reply.rec, sh.clock)) ==> sh' == sh
  {
    if Rejects(reply) then WriteEffect(sdk, sh, Clear, writeOk)
    else if reply.Answered? && sdk.Accepts(reply.rec, sh.clock) then
      WriteEffect(sdk, sh, Save(reply.rec, sh.clock), writeOk)
    else sh
  }

  // Only once the server has answered is the cached token deleted, and the flag cleared with it.
  function DeactivateEffect(sdk: Sdk, sh: Shared, reply: Reply, writeOk: bool): (sh': Shared)
    ensures !reply.Answered? ==> sh' == sh
    ensures reply.Answered? ==> sh' == sh.(cache := Written(sdk, sh.cache, None, writeOk), failed := false)
  {
    if reply.Answered? then WriteEffect(sdk, sh, Clear, writeOk) else sh
  }

  // The call counts as an attempt. The flag ends up true exactly when the server could not be reached
  // and the cache holds the activation.
  function RenewEffect(sdk: Sdk, sh: Shared, activation: string, reply: Reply, readOk: bool, writeOk: bool)
    : (sh': Shared)
    ensures sh'.renewal == sh.renewal.(lastAttempt := Some(sh.clock))
    ensures sh'.clock == sh.clock && sh'.holder == sh.holder
    ensures sh'.failed <==> reply.Unreachable? && Found(sdk, sh, activation, readOk).Some?
    ensures reply.NotFound? || reply.Expired? || reply.WrongProject? ==>
              sh'.cache == Written(sdk, sh.cache, None, writeOk)
    ensures reply.Answered? && sdk.Accepts(reply.rec, sh.clock) ==>
              sh'.cache == Written(sdk, sh.cache, Some(reply.rec), writeOk)
    ensures !Rejects(reply) && !(reply.Answered? && sdk.Accepts(reply.rec, sh.clock)) ==> sh'.cache == sh.cache
  {
    var marked := sh.(renewal := sh.renewal.(lastAttempt := Some(sh.clock)));
    var cleared := if Rejects(reply) then WriteEffect(sdk, marked, Clear, writeOk) else marked;
    var noted := NoteEffect(sdk, cleared, activation, reply.Unreachable?, readOk);
    if reply.Answered? && sdk.Accepts(reply.rec, sh.clock) then
      WriteEffect(sdk, noted, Save(reply.rec, sh.clock), writeOk)
    else noted
  }

  // How a background renewal ended that got `reply` and looked at it at `now`.
  function OutcomeAt(sdk: Sdk, reply: Reply, now: Instant): Outcome {
    if !reply.Answered? then OutcomeOf(reply)
    else if sdk.Accepts(reply.rec, now) then Fresh(reply.rec, now)
    else Failed
  }

  // A background renewal with the answer it gets, up to the end of its thread. One that a newer renewal has
  // taken over from changes nothing. Otherwise its mark goes; the flag ends up true exactly when the server
  // could not be reached and the cache holds the activation; and if it does, an accepted answer replaces the
  // cache and a rejection empties it. Anything else leaves the cache as it was.
  function RenewalEffect(sdk: Sdk, sh: Shared, job: Job, reply: Reply, readOk: bool, writeOk: bool): (sh': Shared)
    ensures sh.renewal.attempt != job.attempt ==> sh' == sh
    ensures sh.renewal.attempt == job.attempt ==>
              sh' == sh.(renewal := sh.renewal.(inFlight := None), failed := sh'.failed, cache := sh'.cache)
    ensures sh.renewal.attempt == job.attempt ==>
              var held := Found(sdk, sh, job.activation, readOk).Some?;
              && (sh'.failed <==> reply.Unreachable? && held)
              && sh'.cache == if !held then sh.cache
                              else if reply.NotFound? || reply.Expired? || reply.WrongProject? then
                                Written(sdk, sh.cache, None, writeOk)
                              else if reply.Answered? && sdk.Accepts(reply.rec, sh.clock) then
                                Written(sdk, sh.cache, Some(reply.rec), writeOk)
                              else sh.cache
  {
    var stored := StoreEffect(sdk, sh, job, OutcomeAt(sdk, reply, sh.clock), readOk, writeOk);
    stored.(renewal := Finish(stored.renewal, job.attempt))
  }

  /******* Each effect is what the call's steps add up to *******/

  // The shared last step of `activate` and `renew`.
  lemma {:induction false} AcceptRuns(sdk: Sdk, s: State, t: Tid, es: seq<Event>, sh: Shared, rec: Record,
                                      writeOk: bool)
    returns (es': seq<Event>)
    requires sh.holder.None? && Leads(sdk, s, t, es, Calling(AcceptAnswer(rec)), sh)
    ensures es <= es'
    ensures Leads(sdk, s, t, es', Idle,
                  if sdk.Accepts(rec, sh.clock) then WriteEffect(sdk, sh, Save(rec, sh.clock), writeOk) else sh)
  {
    LeadsOn(sdk, s, t, es, Calling(AcceptAnswer(rec)), sh, Go);
    es' := es + [Run(t, Go)];
    if sdk.Accepts(rec, sh.clock) {
      es' := WriteSection(sdk, s, t, es', sh, Save(rec, sh.clock), Return, writeOk);
    }
  }

  // Whether a cached record serves a call for this key: it passes the pipeline now, and its key or its
  // alias is the one asked for.
  predicate Serves(sdk: Sdk, rec: Option<Record>, sanitized: string, normalized: string, now: Instant) {
    && rec.Some? && sdk.Accepts(rec.value, now)
    && var lic := sdk.verify(rec.value, now).value;
       lic.key == sanitized || (lic.alias == normalized && lic.alias != "")
  }

  // `activate` first looks for a usable licence of the same key in the cache; finding one it returns
  // it without a request and changes nothing.
  lemma {:induction false} ActivateLooks(sdk: Sdk, s: State, t: Tid, sanitized: string, normalized: string,
                                         readOk: bool)
    returns (es: seq<Event>)
    requires s.Pc(t) == Calling(ActivateLoad(sanitized, normalized))
    ensures forall e :: e in es ==> !e.Run? || !e.choice.Receive?
    ensures var usable := Serves(sdk, Load(sdk, s.sh, readOk), sanitized, normalized, s.sh.clock);
            Leads(sdk, s, t, es, if usable then Idle else Calling(ActivatePost), s.sh)
  {
    LeadsOn(sdk, s, t, [], Calling(ActivateLoad(sanitized, normalized)), s.sh, Disk(readOk));
    es := [] + [Run(t, Disk(readOk))];
    var rec := Load(sdk, s.sh, readOk);
    if rec.Some? {
      LeadsOn(sdk, s, t, es, Calling(ActivateMatch(sanitized, normalized, rec.value)), s.sh, Go);
      es := es + [Run(t, Go)];
    }
  }

  lemma {:induction false} ActivateRuns(sdk: Sdk, s: State, t: Tid, reply: Reply, writeOk: bool)
    returns (es: seq<Event>)
    requires s.sh.holder.None? && s.Pc(t) == Calling(ActivatePost)
    ensures Run(t, Receive(reply)) in es
    ensures Leads(sdk, s, t, es, Idle, ActivateEffect(sdk, s.sh, reply, writeOk))
  {
    LeadsOn(sdk, s, t, [], Calling(ActivatePost), s.sh, Receive(reply));
    es := [] + [Run(t, Receive(reply))];
    if Rejects(reply) {
      es := WriteSection(sdk, s, t, es, s.sh, Clear, Return, writeOk);
    } else if reply.Answered? {
      es := AcceptRuns(sdk, s, t, es, s.sh, reply.rec, writeOk);
    }
  }

  // Two parts of a thread's steps, one after the other.
  lemma {:induction false} LeadsFurther(sdk: Sdk, s: State, t: Tid, es: seq<Event>, pc: Pc, sh: Shared,
                                        fs: seq<Event>, pc': Pc, sh': Shared)
    requires Leads(sdk, s, t, es, pc, sh) && Leads(sdk, Exec(sdk, s, es).value, t, fs, pc', sh')
    ensures Leads(sdk, s, t, es + fs, pc', sh')
  {
    ExecConcat(sdk, s, es, fs);
  }

  // `activate` as a whole: a key of no or more than 256 characters is refused, a cached licence that serves
  // is returned without a request, both without a change; otherwise the answer has its effect.
  lemma {:induction false} ActivateCall(sdk: Sdk, s: State, t: Tid, sanitized: string, normalized: string,
                                        readOk: bool, reply: Reply, writeOk: bool)
    returns (es: seq<Event>, s': State)
    requires s.sh.holder.None? && s.Pc(t) == Idle
    ensures Exec(sdk, s, [Run(t, Invoke(Activate(sanitized, normalized)))] + es) == Some(s') && s'.Pc(t) == Idle
    ensures var asks := 1 <= |normalized| <= 256
                        && !Serves(sdk, Load(sdk, s.sh, readOk), sanitized, normalized, s.sh.clock);
            && s'.sh == (if asks then ActivateEffect(sdk, s.sh, reply, writeOk) else s.sh)
            && (asks <==> Run(t, Receive(reply)) in es)
  {
    var call := Activate(sanitized, normalized);
    var s1 := Next(sdk, s, Run(t, Invoke(call))).value;
    es := [];
    if 1 <= |normalized| <= 256 {
      es := ActivateLooks(sdk, s1, t, sanitized, normalized, readOk);
      if !Serves(sdk, Load(sdk, s.sh, readOk), sanitized, normalized, s.sh.clock) {
        var rest := ActivateRuns(sdk, Exec(sdk, s1, es).value, t, reply, writeOk);
        LeadsFurther(sdk, s1, t, es, Calling(ActivatePost), s.sh, rest, Idle,
                     ActivateEffect(sdk, s.sh, reply, writeOk));
        es := es + rest;
      }
    }
    ExecOne(sdk, s, Run(t, Invoke(call)), es);
    s' := Exec(sdk, s1, es).value;
  }

  lemma {:induction false} DeactivateRuns(sdk: Sdk, s: State, t: Tid, reply: Reply, writeOk: bool)
    returns (es: seq<Event>)
    requires s.sh.holder.None? && s.Pc(t) == Calling(DeactivatePost)
    ensures Run(t, Receive(reply)) in es
    ensures Leads(sdk, s, t, es, Idle, DeactivateEffect(sdk, s.sh, reply, writeOk))
  {
    LeadsOn(sdk, s, t, [], Calling(DeactivatePost), s.sh, Receive(reply));
    es := [] + [Run(t, Receive(reply))];
    if reply.Answered? {
      es := WriteSection(sdk, s, t, es, s.sh, Clear, Return, writeOk);
    }
  }

  lemma {:induction false} RenewMarks(sdk: Sdk, s: State, t: Tid, activation: string) returns (es: seq<Event>)
    requires s.sh.holder.None? && s.Pc(t) == Calling(RenewClock(activation))
    ensures Leads(sdk, s, t, es, Calling(RenewMark(activation, s.sh.clock)), s.sh.(holder := Some(t)))
  {
    LeadsOn(sdk, s, t, [], Calling(RenewClock(activation)), s.sh, Go);
    es := [] + [Run(t, Go)];
    LeadsOn(sdk, s, t, es, Calling(RenewLock(activation, s.sh.clock)), s.sh, Go);
    es := es + [Run(t, Go)];
  }

  lemma {:induction false} RenewPosts(sdk: Sdk, s: State, t: Tid, activation: string) returns (es: seq<Event>)
    requires s.sh.holder.None? && s.Pc(t) == Calling(RenewClock(activation))
    ensures Leads(sdk, s, t, es, Calling(RenewPost(activation)),
                  s.sh.(renewal := s.sh.renewal.(lastAttempt := Some(s.sh.clock))))
  {
    var sh := s.sh.(holder := Some(t));
    es := RenewMarks(sdk, s, t, activation);
    LeadsOn(sdk, s, t, es, Calling(RenewMark(activation, s.sh.clock)), sh, Go);
    es := es + [Run(t, Go)];
    LeadsOn(sdk, s, t, es, Calling(RenewUnlock(activation)),
            sh.(renewal := sh.renewal.(lastAttempt := Some(s.sh.clock))), Go);
    es := es + [Run(t, Go)];
  }

  lemma {:induction false} RenewRuns(sdk: Sdk, s: State, t: Tid, activation: string, reply: Reply, readOk: bool,
                                     writeOk: bool)
    returns (es: seq<Event>)
    requires s.sh.holder.None? && s.Pc(t) == Calling(RenewClock(activation))
    ensures Run(t, Receive(reply)) in es
    ensures Leads(sdk, s, t, es, Idle, RenewEffect(sdk, s.sh, activation, reply, readOk, writeOk))
  {
    var sh := s.sh.(renewal := s.sh.renewal.(lastAttempt := Some(s.sh.clock)));
    es := RenewPosts(sdk, s, t, activation);
    LeadsOn(sdk, s, t, es, Calling(RenewPost(activation)), sh, Receive(reply));
    es := es + [Run(t, Receive(reply))];
    assert Run(t, Receive(reply)) in es;
    if Rejects(reply) {
      es := WriteSection(sdk, s, t, es, sh, Clear, Note(activation, reply), writeOk);
      sh := WriteEffect(sdk, sh, Clear, writeOk);
    }
    es := NoteSection(sdk, s, t, es, sh, activation, reply, readOk);
    if reply.Answered? {
      es := AcceptRuns(sdk, s, t, es, NoteEffect(sdk, sh, activation, false, readOk), reply.rec, writeOk);
    }
  }

  lemma {:induction false} AnswerArrives(sdk: Sdk, s: State, t: Tid, job: Job, reply: Reply) returns (es: seq<Event>)
    requires s.Pc(t) == Renewing(BgPost(job))
    ensures Run(t, Receive(reply)) in es
    ensures Leads(sdk, s, t, es, Renewing(BgLock(job, OutcomeAt(sdk, reply, s.sh.clock))), s.sh)
  {
    LeadsOn(sdk, s, t, [], Renewing(BgPost(job)), s.sh, Receive(reply));
    es := [] + [Run(t, Receive(reply))];
    if reply.Answered? {
      LeadsOn(sdk, s, t, es, Renewing(BgAccept(job, reply.rec)), s.sh, Go);
      es := es + [Run(t, Go)];
    }
  }

  // A background renewal from its request to the end of its thread.
  lemma {:induction false} RenewalRuns(sdk: Sdk, s: State, t: Tid, job: Job, reply: Reply, readOk: bool, writeOk: bool)
    returns (es: seq<Event>)
    requires s.sh.holder.None? && s.Pc(t) == Renewing(BgPost(job))
    ensures Run(t, Receive(reply)) in es
    ensures Leads(sdk, s, t, es, Gone, RenewalEffect(sdk, s.sh, job, reply, readOk, writeOk))
  {
    var outcome := OutcomeAt(sdk, reply, s.sh.clock);
    es := AnswerArrives(sdk, s, t, job, reply);
    es := StoreSection(sdk, s, t, es, s.sh, job, outcome, readOk, writeOk);
    es := DropSection(sdk, s, t, es, StoreEffect(sdk, s.sh, job, outcome, readOk, writeOk), job);
  }

  // One whose thread dies while it waits only takes its own mark back.
  lemma {:induction false} DyingRuns(sdk: Sdk, s: State, t: Tid, job: Job) returns (es: seq<Event>)
    requires s.sh.holder.None? && s.Pc(t) == Renewing(BgPost(job))
    ensures Leads(sdk, s, t, es, Gone,
                  if s.sh.renewal.attempt == job.attempt then s.sh.(renewal := s.sh.renewal.(inFlight := None))
                  else s.sh)
  {
    LeadsOn(sdk, s, t, [], Renewing(BgPost(job)), s.sh, Die);
    es := DropSection(sdk, s, t, [] + [Run(t, Die)], s.sh, job);
  }

  /******* A renewal that does not reach the server and does not set the flag *******/

  const NO_VERIFIER := Sdk((rec, now) => None, "MACHINE", true)

  const NEVER_ACTIVATED := State(Shared(None, FRESH_RENEWAL, false, None, 0), map[], {0}, Nothing)

  // With nothing in the cache, a manual `renew` that cannot reach the server leaves the flag false.
  lemma UnreachableWithoutTheActivation() returns (es: seq<Event>, s: State)
    ensures Initial(NEVER_ACTIVATED) && Exec(NO_VERIFIER, NEVER_ACTIVATED, es) == Some(s)
    ensures Run(1, Invoke(Renew("ACT"))) in es && Run(1, Receive(Unreachable)) in es
    ensures s.Pc(1) == Idle && s.sh.renewal.lastAttempt == Some(0) && !s.sh.failed
  {
    var first := Run(1, Invoke(Renew("ACT")));
    var s1 := Next(NO_VERIFIER, NEVER_ACTIVATED, first).value;
    var rest := RenewRuns(NO_VERIFIER, s1, 1, "ACT", Unreachable, true, true);
    es := [first] + rest;
    ExecOne(NO_VERIFIER, NEVER_ACTIVATED, first, rest);
    s := Exec(NO_VERIFIER, s1, rest).value;
  }
}
