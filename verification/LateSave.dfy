/** What `deactivate` does not keep. Its documentation says that `check` finds no activation from then on
    until the next `activate`. Two kinds of run on which it does, without one. */
module LateSave {
  import opened Wrappers
  import opened Domain
  import opened Protocol
  import opened CriticalSections
  import opened Calls
  import opened Answers
  import opened CacheSafety
  import opened Progress

  const RENEWER: Tid := 1
  const DEACTIVATOR: Tid := 2

  predicate CallsActivate(e: Event) {
    e.Run? && e.choice.Invoke? && e.choice.call.Activate?
  }

  // A thread in a call that waits for the network starts no other thread.
  lemma CallsSpawnNothing(sdk: Sdk, t: Tid, c: CallPc, sh: Shared, ch: Choice)
    requires ThreadMove(sdk, t, Calling(c), sh, ch).Move?
    ensures var m := ThreadMove(sdk, t, Calling(c), sh, ch); m.child.None? && (m.pc.Calling? || m.pc.Idle?)
  {
  }

  lemma {:induction false} OthersKeepTheirPlace(sdk: Sdk, s: State, es: seq<Event>, t: Tid, u: Tid)
    requires Exec(sdk, s, es).Some? && Alone(es, t) && u != t && (s.Pc(t).Calling? || s.Pc(t).Idle?)
    ensures Exec(sdk, s, es).value.Pc(u) == s.Pc(u)
    decreases |es|
  {
    if es == [] {
    } else {
      assert es[0] in es;
      CallsSpawnNothing(sdk, t, s.Pc(t).call, s.sh, es[0].choice);
      OthersKeepTheirPlace(sdk, Next(sdk, s, es[0]).value, es[1..], t, u);
    }
  }

  // A manual `renew` gets its answer, accepts it, and is held up before it saves.
  lemma {:induction false} RenewIsAnswered(sdk: Sdk, s: State, t: Tid, activation: string, rec: Record)
    returns (es: seq<Event>)
    requires s.sh.holder.None? && s.Pc(t) == Calling(RenewClock(activation)) && sdk.Accepts(rec, s.sh.clock)
    ensures var marked := s.sh.(renewal := s.sh.renewal.(lastAttempt := Some(s.sh.clock)));
            Leads(sdk, s, t, es, Calling(WriteLock(Save(rec, s.sh.clock), Return)),
                  NoteEffect(sdk, marked, activation, false, true))
  {
    var sh := s.sh.(renewal := s.sh.renewal.(lastAttempt := Some(s.sh.clock)));
    es := RenewPosts(sdk, s, t, activation);
    LeadsOn(sdk, s, t, es, Calling(RenewPost(activation)), sh, Receive(Answered(rec)));
    es := es + [Run(t, Receive(Answered(rec)))];
    es := NoteSection(sdk, s, t, es, sh, activation, Answered(rec), true);
    LeadsOn(sdk, s, t, es, Calling(AcceptAnswer(rec)), NoteEffect(sdk, sh, activation, false, true), Go);
    es := es + [Run(t, Go)];
  }

  // A call begins.
  lemma Begins(sdk: Sdk, s: State, t: Tid, call: Call, pc: Pc, es: seq<Event>)
    requires s.Pc(t) == Idle && InvokeMove(call, s.sh) == To(pc, s.sh)
    ensures Exec(sdk, s, [Run(t, Invoke(call))] + es) == Exec(sdk, After1(s, t, pc, s.sh, None), es)
  {
    ExecOne(sdk, s, Run(t, Invoke(call)), es);
  }

  // `deactivate` as a whole call, by a thread that was idle.
  lemma {:induction false} Deactivates(sdk: Sdk, s: State, t: Tid, reply: Reply, works: bool) returns (es: seq<Event>)
    requires s.sh.holder.None? && s.Pc(t) == Idle
    ensures Exec(sdk, s, es).Some? && Exec(sdk, s, es).value.Pc(t) == Idle
    ensures Exec(sdk, s, es).value.sh == DeactivateEffect(sdk, s.sh, reply, works)
    ensures forall u: Tid :: u != t ==> Exec(sdk, s, es).value.Pc(u) == s.Pc(u)
    ensures Run(t, Invoke(Deactivate)) in es && forall e :: e in es ==> !CallsActivate(e)
  {
    var s1 := After1(s, t, Calling(DeactivatePost), s.sh, None);
    var rest := DeactivateRuns(sdk, s1, t, reply, works);
    Begins(sdk, s, t, Deactivate, Calling(DeactivatePost), rest);
    es := [Run(t, Invoke(Deactivate))] + rest;
    forall u: Tid | u != t ensures Exec(sdk, s, es).value.Pc(u) == s.Pc(u) {
      OthersKeepTheirPlace(sdk, s1, rest, t, u);
    }
  }

  /******* The two runs *******/

  // A manual `renew` holds its accepted answer when `deactivate` empties the cache, and saves it afterwards.
  // Nobody calls `activate`, and a `check` has a licence again.
  lemma {:induction false} SavedAfterTheDeactivation(sdk: Sdk, origin: State, activation: string, rec: Record)
    returns (before: seq<Event>, mid: State, after: seq<Event>, s: State)
    requires Initial(origin) && sdk.cacheOn && sdk.Accepts(rec, origin.sh.clock)
    ensures Exec(sdk, origin, before) == Some(mid) && Run(DEACTIVATOR, Invoke(Deactivate)) in before
    ensures mid.Pc(DEACTIVATOR) == Idle && mid.sh.cache.None?
    ensures Exec(sdk, mid, after) == Some(s) && s.sh.cache == Some(rec)
    ensures forall e :: e in before + after ==> !CallsActivate(e)
    ensures AnswerFor(sdk, s.sh.cache, s.sh.failed, s.sh.clock).Licensed?
  {
    var held: State;
    before, held := TheAnswerIsHeldUp(sdk, origin, activation, rec);
    var deactivation := Deactivates(sdk, held, DEACTIVATOR, Answered(rec), true);
    ExecConcat(sdk, origin, before, deactivation);
    before, mid := before + deactivation, Exec(sdk, held, deactivation).value;
    after := WriteSection(sdk, mid, RENEWER, [], mid.sh, Save(rec, origin.sh.clock), Return, true);
    s := Exec(sdk, mid, after).value;
    AnswerIff(sdk, rec, s.sh.failed, s.sh.clock);
  }

  lemma {:induction false} TheAnswerIsHeldUp(sdk: Sdk, origin: State, activation: string, rec: Record)
    returns (es: seq<Event>, s: State)
    requires Initial(origin) && sdk.Accepts(rec, origin.sh.clock)
    ensures Exec(sdk, origin, es) == Some(s) && forall e :: e in es ==> !CallsActivate(e)
    ensures s.Pc(RENEWER) == Calling(WriteLock(Save(rec, origin.sh.clock), Return))
    ensures s.Pc(DEACTIVATOR) == Idle && s.sh.holder.None? && s.sh.clock == origin.sh.clock
  {
    var s1 := After1(origin, RENEWER, Calling(RenewClock(activation)), origin.sh, None);
    var rest := RenewIsAnswered(sdk, s1, RENEWER, activation, rec);
    Begins(sdk, origin, RENEWER, Renew(activation), Calling(RenewClock(activation)), rest);
    OthersKeepTheirPlace(sdk, s1, rest, RENEWER, DEACTIVATOR);
    es := [Run(RENEWER, Invoke(Renew(activation)))] + rest;
    s := Exec(sdk, s1, rest).value;
  }

  // The server has answered `deactivate`, the token cannot be removed, and `check` has the licence still.
  lemma {:induction false} KeptByAFailedRemoval(sdk: Sdk, s: State, rec: Record, reply: Reply)
    returns (es: seq<Event>, s': State)
    requires s.sh.holder.None? && s.Pc(DEACTIVATOR) == Idle && reply.Answered?
    requires s.sh.cache == Some(rec) && sdk.Accepts(rec, s.sh.clock)
    ensures Exec(sdk, s, es) == Some(s') && Run(DEACTIVATOR, Invoke(Deactivate)) in es
    ensures s'.Pc(DEACTIVATOR) == Idle && s'.sh == s.sh.(failed := false)
    ensures AnswerFor(sdk, s'.sh.cache, s'.sh.failed, s'.sh.clock).Licensed?
  {
    es := Deactivates(sdk, s, DEACTIVATOR, reply, false);
    s' := Exec(sdk, s, es).value;
    AnswerIff(sdk, rec, false, s.sh.clock);
  }

  /******* When it keeps its word *******/

  // From its removal step on the cache is empty in every state of a run, so that every `check` that looks
  // answers `NotActivated`, exactly when the removal works, or nothing was there, and no later step of the
  // run is a manual save.
  lemma {:induction false} DeactivatedIff(sdk: Sdk, origin: State, before: seq<Event>, t: Tid, call: After,
                                          works: bool, after: seq<Event>)
    requires Initial(origin) && Exec(sdk, origin, before).Some?
    requires Exec(sdk, origin, before).value.Pc(t) == Calling(WriteDisk(Clear, call))
    requires Exec(sdk, Next(sdk, Exec(sdk, origin, before).value, Run(t, Disk(works))).value, after).Some?
    ensures var s := Exec(sdk, origin, before).value;
            var s1 := Next(sdk, s, Run(t, Disk(works))).value;
            AlwaysEmpty(sdk, s1, after) <==>
            (s.sh.cache.None? || (sdk.cacheOn && works)) && NoManualSave(sdk, s1, after)
  {
    var s := Exec(sdk, origin, before).value;
    var e := Run(t, Disk(works));
    var s1 := Next(sdk, s, e).value;
    if s1.sh.cache.None? {
      ExecConcat(sdk, origin, before, [e]);
      assert [e][1..] == [];
      EmptyExactlyUntilAManualSave(sdk, origin, before + [e], after);
    }
  }
}
