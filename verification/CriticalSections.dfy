/** The critical sections of src/http.rs as single changes of the shared state. While a thread is inside
    one, nothing the lock guards changes behind its back (`LockDiscipline.NothingSlipsIn`), so a section's
    steps add up to its effect here. */
module CriticalSections {
  import opened Wrappers
  import opened Time
  import opened Protocol
  import opened Progress

  /******* Effects *******/

  // What `holds_activation` finds: the cached record, if it can be read, verifies now and is of the
  // activation. Its age, its licence end and its machine do not matter.
  function Found(sdk: Sdk, sh: Shared, activation: string, readOk: bool): (held: Option<Held>)
    ensures held.Some? ==> sh.cache == Some(held.value.rec) && held.value.at == sh.clock
    ensures held.Some? <==>
            && sdk.cacheOn && readOk && sh.cache.Some? && sdk.verify(sh.cache.value, sh.clock).Some?
            && sdk.verify(sh.cache.value, sh.clock).value.activationId == activation
  {
    var rec := Load(sdk, sh, readOk);
    if rec.Some? then HeldIf(sdk, rec.value, activation, sh.clock) else None
  }

  // `note_renewal`.
  function NoteEffect(sdk: Sdk, sh: Shared, activation: string, noNetwork: bool, readOk: bool): Shared {
    sh.(failed := FlagFor(noNetwork, Found(sdk, sh, activation, readOk)))
  }

  // The locked part of `renew_and_store`.
  function StoreEffect(sdk: Sdk, sh: Shared, job: Job, outcome: Outcome, readOk: bool, writeOk: bool): Shared {
    if sh.renewal.attempt != job.attempt then sh
    else
      var noted := NoteEffect(sdk, sh, job.activation, outcome.NoNetwork?, readOk);
      if Found(sdk, sh, job.activation, readOk).None? then noted
      else if outcome.Fresh? then Stored(sdk, noted, Some(outcome.rec), writeOk)
      else if outcome.Rejected? then Stored(sdk, noted, None, writeOk)
      else noted
  }

  // `save_to_cache` and `clear_cache`.
  function WriteEffect(sdk: Sdk, sh: Shared, write: Write, writeOk: bool): Shared {
    Stored(sdk, sh.(failed := false), if write.Save? then Some(write.rec) else None, writeOk)
  }

  // The locked part of `renew_in_background`, at the reading `now`.
  function StartEffect(sh: Shared, now: Instant, spawns: bool): Shared {
    if !Due(sh.renewal, now) then sh
    else
      var begun := Begin(sh.renewal, now);
      sh.(renewal := if spawns then begun else begun.(inFlight := None))
  }

  /******* Each effect is what the steps of its section add up to *******/

  // Steps of thread `t` alone, none of which begins another call.
  ghost predicate Alone(es: seq<Event>, t: Tid) {
    forall e :: e in es ==> e.Run? && e.t == t && !e.choice.Invoke?
  }

  // From `s` the steps `es` of thread `t` lead it to `pc` and the shared state to `sh`.
  ghost predicate Leads(sdk: Sdk, s: State, t: Tid, es: seq<Event>, pc: Pc, sh: Shared) {
    && Exec(sdk, s, es).Some? && Exec(sdk, s, es).value.Pc(t) == pc && Exec(sdk, s, es).value.sh == sh
    && Alone(es, t)
  }

  lemma {:induction false} LeadsOn(sdk: Sdk, s: State, t: Tid, es: seq<Event>, pc: Pc, sh: Shared, ch: Choice)
    requires Leads(sdk, s, t, es, pc, sh) && !ch.Invoke?
    requires ThreadMove(sdk, t, pc, sh, ch).Move? && ThreadMove(sdk, t, pc, sh, ch).child.None?
    ensures var m := ThreadMove(sdk, t, pc, sh, ch); Leads(sdk, s, t, es + [Run(t, ch)], m.pc, m.sh)
  {
    ExecConcat(sdk, s, es, [Run(t, ch)]);
    assert [Run(t, ch)][1..] == [];
  }

  lemma {:induction false} StoreEnters(sdk: Sdk, s: State, t: Tid, es: seq<Event>, sh: Shared, job: Job,
                                       outcome: Outcome)
    requires sh.holder.None? && Leads(sdk, s, t, es, Renewing(BgLock(job, outcome)), sh)
    ensures Leads(sdk, s, t, es + [Run(t, Go)] + [Run(t, Go)],
                  Renewing(if sh.renewal.attempt == job.attempt then BgRead(job, outcome) else BgUnlock(job)),
                  sh.(holder := Some(t)))
  {
    LeadsOn(sdk, s, t, es, Renewing(BgLock(job, outcome)), sh, Go);
    LeadsOn(sdk, s, t, es + [Run(t, Go)], Renewing(BgOwn(job, outcome)), sh.(holder := Some(t)), Go);
  }

  lemma {:induction false} StoreReads(sdk: Sdk, s: State, t: Tid, es: seq<Event>, sh: Shared, job: Job,
                                      outcome: Outcome, readOk: bool)
    returns (es': seq<Event>)
    requires Leads(sdk, s, t, es, Renewing(BgRead(job, outcome)), sh)
    ensures es <= es'
    ensures Leads(sdk, s, t, es', Renewing(BgStore(job, outcome, Found(sdk, sh, job.activation, readOk))), sh)
  {
    LeadsOn(sdk, s, t, es, Renewing(BgRead(job, outcome)), sh, Disk(readOk));
    es' := es + [Run(t, Disk(readOk))];
    var rec := Load(sdk, sh, readOk);
    if rec.Some? {
      LeadsOn(sdk, s, t, es', Renewing(BgVerify(job, outcome, rec.value)), sh, Go);
      es' := es' + [Run(t, Go)];
    }
  }

  lemma {:induction false} StoreWrites(sdk: Sdk, s: State, t: Tid, es: seq<Event>, sh: Shared, job: Job,
                                       outcome: Outcome, readOk: bool, writeOk: bool)
    returns (es': seq<Event>)
    requires sh.renewal.attempt == job.attempt
    requires Leads(sdk, s, t, es, Renewing(BgStore(job, outcome, Found(sdk, sh, job.activation, readOk))), sh)
    ensures es <= es'
    ensures Leads(sdk, s, t, es', Renewing(BgUnlock(job)), StoreEffect(sdk, sh, job, outcome, readOk, writeOk))
  {
    var held := Found(sdk, sh, job.activation, readOk);
    LeadsOn(sdk, s, t, es, Renewing(BgStore(job, outcome, held)), sh, Go);
    es' := es + [Run(t, Go)];
    if held.Some? {
      LeadsOn(sdk, s, t, es', Renewing(BgDisk(job, outcome, held.value)),
              NoteEffect(sdk, sh, job.activation, outcome.NoNetwork?, readOk), Disk(writeOk));
      es' := es' + [Run(t, Disk(writeOk))];
    }
  }

  lemma {:induction false} StoreSection(sdk: Sdk, s: State, t: Tid, es: seq<Event>, sh: Shared, job: Job,
                                        outcome: Outcome, readOk: bool, writeOk: bool)
    returns (es': seq<Event>)
    requires sh.holder.None? && Leads(sdk, s, t, es, Renewing(BgLock(job, outcome)), sh)
    ensures es <= es'
    ensures Leads(sdk, s, t, es', Renewing(BgDropLock(job)), StoreEffect(sdk, sh, job, outcome, readOk, writeOk))
  {
    var locked := sh.(holder := Some(t));
    StoreEnters(sdk, s, t, es, sh, job, outcome);
    es' := es + [Run(t, Go)] + [Run(t, Go)];
    if sh.renewal.attempt == job.attempt {
      es' := StoreReads(sdk, s, t, es', locked, job, outcome, readOk);
      es' := StoreWrites(sdk, s, t, es', locked, job, outcome, readOk, writeOk);
    }
    LeadsOn(sdk, s, t, es', Renewing(BgUnlock(job)), StoreEffect(sdk, locked, job, outcome, readOk, writeOk), Go);
    es' := es' + [Run(t, Go)];
    assert StoreEffect(sdk, locked, job, outcome, readOk, writeOk).(holder := None)
        == StoreEffect(sdk, sh, job, outcome, readOk, writeOk);
  }

  // `InFlight::drop`, with the lock it takes.
  lemma {:induction false} DropSection(sdk: Sdk, s: State, t: Tid, es: seq<Event>, sh: Shared, job: Job)
    returns (es': seq<Event>)
    requires sh.holder.None? && Leads(sdk, s, t, es, Renewing(BgDropLock(job)), sh)
    ensures es <= es'
    ensures Leads(sdk, s, t, es', Gone, sh.(renewal := Finish(sh.renewal, job.attempt)))
  {
    var locked := sh.(holder := Some(t));
    LeadsOn(sdk, s, t, es, Renewing(BgDropLock(job)), sh, Go);
    es' := es + [Run(t, Go)];
    LeadsOn(sdk, s, t, es', Renewing(BgDrop(job)), locked, Go);
    es' := es' + [Run(t, Go)];
    LeadsOn(sdk, s, t, es', Renewing(BgDropUnlock(job)), locked.(renewal := Finish(sh.renewal, job.attempt)), Go);
    es' := es' + [Run(t, Go)];
  }

  lemma {:induction false} NoteEnters(sdk: Sdk, s: State, t: Tid, es: seq<Event>, sh: Shared, activation: string,
                                      reply: Reply)
    requires sh.holder.None? && Leads(sdk, s, t, es, Calling(NoteLock(activation, reply)), sh)
    ensures Leads(sdk, s, t, es + [Run(t, Go)], Calling(NoteRead(activation, reply)), sh.(holder := Some(t)))
  {
    LeadsOn(sdk, s, t, es, Calling(NoteLock(activation, reply)), sh, Go);
  }

  lemma {:induction false} NoteReads(sdk: Sdk, s: State, t: Tid, es: seq<Event>, sh: Shared, activation: string,
                                     reply: Reply, readOk: bool)
    returns (es': seq<Event>)
    requires Leads(sdk, s, t, es, Calling(NoteRead(activation, reply)), sh)
    ensures es <= es'
    ensures Leads(sdk, s, t, es', Calling(NoteStore(activation, reply, Found(sdk, sh, activation, readOk))), sh)
  {
    LeadsOn(sdk, s, t, es, Calling(NoteRead(activation, reply)), sh, Disk(readOk));
    es' := es + [Run(t, Disk(readOk))];
    if Load(sdk, sh, readOk).Some? {
      LeadsOn(sdk, s, t, es', Calling(NoteVerify(activation, reply, Load(sdk, sh, readOk).value)), sh, Go);
      es' := es' + [Run(t, Go)];
    }
  }

  lemma {:induction false} NoteStores(sdk: Sdk, s: State, t: Tid, es: seq<Event>, sh: Shared, activation: string,
                                      reply: Reply, held: Option<Held>)
    requires Leads(sdk, s, t, es, Calling(NoteStore(activation, reply, held)), sh)
    ensures Leads(sdk, s, t, es + [Run(t, Go)], Calling(NoteUnlock(reply)),
                  sh.(failed := FlagFor(reply.Unreachable?, held)))
  {
    LeadsOn(sdk, s, t, es, Calling(NoteStore(activation, reply, held)), sh, Go);
  }

  lemma {:induction false} NoteLeaves(sdk: Sdk, s: State, t: Tid, es: seq<Event>, sh: Shared, reply: Reply)
    requires Leads(sdk, s, t, es, Calling(NoteUnlock(reply)), sh)
    ensures Leads(sdk, s, t, es + [Run(t, Go)], if reply.Answered? then Calling(AcceptAnswer(reply.rec)) else Idle,
                  sh.(holder := None))
  {
    LeadsOn(sdk, s, t, es, Calling(NoteUnlock(reply)), sh, Go);
  }

  lemma {:induction false} NoteSection(sdk: Sdk, s: State, t: Tid, es: seq<Event>, sh: Shared, activation: string,
                                       reply: Reply, readOk: bool)
    returns (es': seq<Event>)
    requires sh.holder.None? && Leads(sdk, s, t, es, Calling(NoteLock(activation, reply)), sh)
    ensures es <= es'
    ensures Leads(sdk, s, t, es', if reply.Answered? then Calling(AcceptAnswer(reply.rec)) else Idle,
                  NoteEffect(sdk, sh, activation, reply.Unreachable?, readOk))
  {
    var locked := sh.(holder := Some(t));
    NoteEnters(sdk, s, t, es, sh, activation, reply);
    es' := NoteReads(sdk, s, t, es + [Run(t, Go)], locked, activation, reply, readOk);
    NoteStores(sdk, s, t, es', locked, activation, reply, Found(sdk, locked, activation, readOk));
    es' := es' + [Run(t, Go)];
    NoteLeaves(sdk, s, t, es', NoteEffect(sdk, locked, activation, reply.Unreachable?, readOk), reply);
    es' := es' + [Run(t, Go)];
  }

  lemma {:induction false} WriteEnters(sdk: Sdk, s: State, t: Tid, es: seq<Event>, sh: Shared, write: Write,
                                       after: After)
    requires sh.holder.None? && Leads(sdk, s, t, es, Calling(WriteLock(write, after)), sh)
    ensures Leads(sdk, s, t, es + [Run(t, Go)] + [Run(t, Go)], Calling(WriteDisk(write, after)),
                  sh.(holder := Some(t), failed := false))
  {
    LeadsOn(sdk, s, t, es, Calling(WriteLock(write, after)), sh, Go);
    LeadsOn(sdk, s, t, es + [Run(t, Go)], Calling(WriteFlag(write, after)), sh.(holder := Some(t)), Go);
  }

  lemma {:induction false} WriteLeaves(sdk: Sdk, s: State, t: Tid, es: seq<Event>, sh: Shared, after: After)
    requires Leads(sdk, s, t, es, Calling(WriteUnlock(after)), sh)
    ensures Leads(sdk, s, t, es + [Run(t, Go)],
                  if after.Note? then Calling(NoteLock(after.activation, after.reply)) else Idle, sh.(holder := None))
  {
    LeadsOn(sdk, s, t, es, Calling(WriteUnlock(after)), sh, Go);
  }

  lemma {:induction false} WriteSection(sdk: Sdk, s: State, t: Tid, es: seq<Event>, sh: Shared, write: Write,
                                        after: After, writeOk: bool)
    returns (es': seq<Event>)
    requires sh.holder.None? && Leads(sdk, s, t, es, Calling(WriteLock(write, after)), sh)
    ensures es <= es'
    ensures Leads(sdk, s, t, es', if after.Note? then Calling(NoteLock(after.activation, after.reply)) else Idle,
                  WriteEffect(sdk, sh, write, writeOk))
  {
    WriteEnters(sdk, s, t, es, sh, write, after);
    es' := es + [Run(t, Go)] + [Run(t, Go)];
    LeadsOn(sdk, s, t, es', Calling(WriteDisk(write, after)), sh.(holder := Some(t), failed := false), Disk(writeOk));
    es' := es' + [Run(t, Disk(writeOk))];
    WriteLeaves(sdk, s, t, es', WriteEffect(sdk, sh, write, writeOk).(holder := Some(t)), after);
    es' := es' + [Run(t, Go)];
  }

  // The same for a step that may spawn `child`, which nobody has used before.
  ghost predicate LeadsUnused(sdk: Sdk, s: State, t: Tid, es: seq<Event>, pc: Pc, sh: Shared, child: Tid) {
    Leads(sdk, s, t, es, pc, sh) && child != t && child !in Exec(sdk, s, es).value.threads
  }

  lemma {:induction false} LeadsOnUnused(sdk: Sdk, s: State, t: Tid, es: seq<Event>, pc: Pc, sh: Shared, child: Tid,
                                         ch: Choice)
    requires LeadsUnused(sdk, s, t, es, pc, sh, child) && !ch.Invoke? && ThreadMove(sdk, t, pc, sh, ch).Move?
    requires ThreadMove(sdk, t, pc, sh, ch).child.Some? ==> ThreadMove(sdk, t, pc, sh, ch).child.value.0 == child
    ensures var m := ThreadMove(sdk, t, pc, sh, ch);
            && Leads(sdk, s, t, es + [Run(t, ch)], m.pc, m.sh)
            && (m.child.None? ==> LeadsUnused(sdk, s, t, es + [Run(t, ch)], m.pc, m.sh, child))
  {
    ExecConcat(sdk, s, es, [Run(t, ch)]);
    assert [Run(t, ch)][1..] == [];
  }

  lemma {:induction false} StartEnters(sdk: Sdk, s: State, t: Tid, view: View, now: Instant, child: Tid)
    returns (es: seq<Event>)
    requires s.sh.holder.None? && s.Pc(t) == Checking(CheckTryLock(view, now)) && child != t && child !in s.threads
    ensures LeadsUnused(sdk, s, t, es, Checking(CheckDecide(view, now)), s.sh.(holder := Some(t)), child)
  {
    LeadsOnUnused(sdk, s, t, [], Checking(CheckTryLock(view, now)), s.sh, child, Go);
    es := [] + [Run(t, Go)];
  }

  lemma {:induction false} StartSection(sdk: Sdk, s: State, t: Tid, view: View, now: Instant, child: Tid, spawnOk: bool)
    returns (es: seq<Event>)
    requires s.sh.holder.None? && s.Pc(t) == Checking(CheckTryLock(view, now)) && child != t && child !in s.threads
    ensures Leads(sdk, s, t, es, Checking(CheckAnswer(view)), StartEffect(s.sh, now, spawnOk))
  {
    var sh := s.sh.(holder := Some(t));
    var ch := if spawnOk then Spawned(child) else SpawnFailed;
    es := StartEnters(sdk, s, t, view, now, child);
    LeadsOnUnused(sdk, s, t, es, Checking(CheckDecide(view, now)), sh, child, Go);
    es := es + [Run(t, Go)];
    if Due(s.sh.renewal, now) {
      var job := Job(s.sh.renewal.attempt + 1, view.lic.activationId, now);
      LeadsOnUnused(sdk, s, t, es, Checking(CheckSpawn(view, job)), sh.(renewal := Begin(sh.renewal, now)), child, ch);
      es := es + [Run(t, ch)];
    }
    LeadsOn(sdk, s, t, es, Checking(CheckUnlock(view)), StartEffect(sh, now, spawnOk), Go);
    es := es + [Run(t, Go)];
    assert StartEffect(sh, now, spawnOk).(holder := None) == StartEffect(s.sh, now, spawnOk);
  }
}
