/** Mutual exclusion and what it buys: the renewal record, the flag and the cache file change only
    under the lock. */
module LockDiscipline {
  import opened Wrappers
  import opened Protocol

  ghost predicate LockInv(s: State) {
    forall t: Tid :: HoldsLock(s.Pc(t)) <==> s.sh.holder == Some(t)
  }

  // One step of one thread: it takes or gives back the lock for itself only, keeps the clock, and
  // touches nothing the lock guards unless it holds it.
  ghost predicate Disciplined(t: Tid, sh: Shared, m: Move)
    requires m.Move?
  {
    && (HoldsLock(m.pc) <==> m.sh.holder == Some(t))
    && (m.sh.holder == sh.holder || (sh.holder.None? && m.sh.holder == Some(t))
        || (sh.holder == Some(t) && m.sh.holder.None?))
    && (sh.holder != Some(t) ==> m.sh == sh.(holder := m.sh.holder))
    && m.sh.clock == sh.clock
    && (m.child.Some? ==> m.child.value.1.Renewing? && m.child.value.1.bg.BgPost?)
  }

  lemma WriteDiscipline(sdk: Sdk, t: Tid, c: CallPc, sh: Shared, ch: Choice)
    requires c.WriteLock? || c.WriteFlag? || c.WriteDisk? || c.WriteUnlock?
    requires HoldsLock(Calling(c)) <==> sh.holder == Some(t)
    requires WriteMove(sdk, t, c, sh, ch).Move?
    ensures Disciplined(t, sh, WriteMove(sdk, t, c, sh, ch))
  {
  }

  lemma RenewDiscipline(sdk: Sdk, t: Tid, c: CallPc, sh: Shared, ch: Choice)
    requires c.RenewClock? || c.RenewLock? || c.RenewMark? || c.RenewUnlock? || c.RenewPost?
          || c.NoteLock? || c.NoteRead? || c.NoteVerify? || c.NoteStore? || c.NoteUnlock?
    requires HoldsLock(Calling(c)) <==> sh.holder == Some(t)
    requires RenewMove(sdk, t, c, sh, ch).Move?
    ensures Disciplined(t, sh, RenewMove(sdk, t, c, sh, ch))
  {
  }

  lemma ActivateDiscipline(sdk: Sdk, t: Tid, c: CallPc, sh: Shared, ch: Choice)
    requires c.ActivateLoad? || c.ActivateMatch? || c.ActivatePost? || c.DeactivatePost? || c.AcceptAnswer?
    requires sh.holder != Some(t) && ActivateMove(sdk, c, sh, ch).Move?
    ensures Disciplined(t, sh, ActivateMove(sdk, c, sh, ch))
  {
  }

  lemma CallDiscipline(sdk: Sdk, t: Tid, c: CallPc, sh: Shared, ch: Choice)
    requires HoldsLock(Calling(c)) <==> sh.holder == Some(t)
    requires ThreadMove(sdk, t, Calling(c), sh, ch).Move?
    ensures Disciplined(t, sh, ThreadMove(sdk, t, Calling(c), sh, ch))
  {
    if c.WriteLock? || c.WriteFlag? || c.WriteDisk? || c.WriteUnlock? {
      WriteDiscipline(sdk, t, c, sh, ch);
    } else if c.ActivateLoad? || c.ActivateMatch? || c.ActivatePost? || c.DeactivatePost? || c.AcceptAnswer? {
      ActivateDiscipline(sdk, t, c, sh, ch);
    } else {
      RenewDiscipline(sdk, t, c, sh, ch);
    }
  }

  lemma BackgroundDiscipline(sdk: Sdk, t: Tid, b: BackgroundPc, sh: Shared, ch: Choice)
    requires HoldsLock(Renewing(b)) <==> sh.holder == Some(t)
    requires BackgroundMove(sdk, t, b, sh, ch).Move?
    ensures Disciplined(t, sh, BackgroundMove(sdk, t, b, sh, ch))
  {
  }

  lemma MoveDiscipline(sdk: Sdk, t: Tid, pc: Pc, sh: Shared, ch: Choice)
    requires HoldsLock(pc) <==> sh.holder == Some(t)
    requires ThreadMove(sdk, t, pc, sh, ch).Move?
    ensures Disciplined(t, sh, ThreadMove(sdk, t, pc, sh, ch))
  {
    match pc
    case Checking(c) =>
    case Calling(c) =>
      CallDiscipline(sdk, t, c, sh, ch);
    case Renewing(b) =>
      BackgroundDiscipline(sdk, t, b, sh, ch);
    case _ =>
  }

  lemma NextKeepsLockInv(sdk: Sdk, s: State, e: Event)
    requires LockInv(s) && Next(sdk, s, e).Some?
    ensures LockInv(Next(sdk, s, e).value)
  {
    var s' := Next(sdk, s, e).value;
    match e
    case Tick(_) =>
      assert forall t: Tid :: s'.Pc(t) == s.Pc(t);
    case Run(t, ch) =>
      assert HoldsLock(s.Pc(t)) <==> s.sh.holder == Some(t);
      MoveDiscipline(sdk, t, s.Pc(t), s.sh, ch);
      forall u: Tid ensures HoldsLock(s'.Pc(u)) <==> s'.sh.holder == Some(u) {
        assert HoldsLock(s.Pc(u)) <==> s.sh.holder == Some(u);
      }
  }

  // A whole run: at every moment of every run at most one thread is inside a critical section, and
  // it is the one the lock names. So no thread asks for the lock while it holds it.
  lemma {:induction false} MutualExclusion(sdk: Sdk, s: State, es: seq<Event>)
    requires LockInv(s) && Exec(sdk, s, es).Some?
    ensures LockInv(Exec(sdk, s, es).value)
    ensures forall t: Tid :: WaitsForLock(Exec(sdk, s, es).value.Pc(t)) ==> Exec(sdk, s, es).value.sh.holder != Some(t)
    decreases |es|
  {
    if es == [] {
    } else {
      NextKeepsLockInv(sdk, s, es[0]);
      MutualExclusion(sdk, Next(sdk, s, es[0]).value, es[1..]);
    }
  }

  predicate Involves(e: Event, t: Tid) {
    e.Run? && e.t == t
  }

  // A step moves its own thread as `ThreadMove` says, and leaves every other thread that has started
  // where it is.
  lemma OwnMove(sdk: Sdk, s: State, e: Event)
    requires e.Run? && Next(sdk, s, e).Some?
    ensures ThreadMove(sdk, e.t, s.Pc(e.t), s.sh, e.choice).Move?
    ensures Next(sdk, s, e).value.Pc(e.t) == ThreadMove(sdk, e.t, s.Pc(e.t), s.sh, e.choice).pc
    ensures Next(sdk, s, e).value.sh == ThreadMove(sdk, e.t, s.Pc(e.t), s.sh, e.choice).sh
  {
  }

  lemma OthersStay(sdk: Sdk, s: State, e: Event, t: Tid)
    requires Next(sdk, s, e).Some? && !Involves(e, t) && t in s.threads
    ensures t in Next(sdk, s, e).value.threads && Next(sdk, s, e).value.Pc(t) == s.Pc(t)
  {
  }

  // Between two steps of the thread that holds the lock, everything the other threads and the clock
  // do leaves the renewal record, the flag and the cache exactly as they were.
  lemma {:induction false} NothingSlipsIn(sdk: Sdk, s: State, es: seq<Event>, t: Tid)
    requires LockInv(s) && s.sh.holder == Some(t) && Exec(sdk, s, es).Some?
    requires forall e :: e in es ==> !Involves(e, t)
    ensures var s' := Exec(sdk, s, es).value;
            s'.Pc(t) == s.Pc(t) && s'.sh == s.sh.(clock := s'.sh.clock)
    decreases |es|
  {
    if es == [] {
    } else {
      var s1 := Next(sdk, s, es[0]).value;
      NextKeepsLockInv(sdk, s, es[0]);
      assert !Involves(es[0], t);
      if es[0].Run? {
        var u := es[0].t;
        assert HoldsLock(s.Pc(u)) <==> s.sh.holder == Some(u);
        MoveDiscipline(sdk, u, s.Pc(u), s.sh, es[0].choice);
        assert HoldsLock(s.Pc(t));
      }
      NothingSlipsIn(sdk, s1, es[1..], t);
    }
  }

  lemma {:induction false} LockInvAlong(sdk: Sdk, ss: seq<State>, es: seq<Event>, j: nat)
    requires Behaviour(sdk, ss, es) && LockInv(ss[0]) && j < |ss|
    ensures LockInv(ss[j])
    decreases j
  {
    if j == 0 {
    } else {
      LockInvAlong(sdk, ss, es, j - 1);
      assert Next(sdk, ss[j - 1], es[j - 1]) == Some(ss[j]);
      NextKeepsLockInv(sdk, ss[j - 1], es[j - 1]);
    }
  }

  // The same between two states of a run given state by state.
  lemma {:induction false} NothingSlipsBetween(sdk: Sdk, ss: seq<State>, es: seq<Event>, i: nat, j: nat, t: Tid)
    requires Behaviour(sdk, ss, es) && LockInv(ss[0]) && i <= j < |ss| && ss[i].sh.holder == Some(t)
    requires forall k :: i <= k < j ==> !Involves(es[k], t)
    ensures ss[j].Pc(t) == ss[i].Pc(t) && ss[j].sh == ss[i].sh.(clock := ss[j].sh.clock)
    decreases j
  {
    if i == j {
    } else {
      var s, e := ss[j - 1], es[j - 1];
      NothingSlipsBetween(sdk, ss, es, i, j - 1, t);
      LockInvAlong(sdk, ss, es, j - 1);
      assert Next(sdk, s, e) == Some(ss[j]) && !Involves(e, t);
      assert HoldsLock(s.Pc(t));
      OthersStay(sdk, s, e, t);
      if e.Run? {
        assert HoldsLock(s.Pc(e.t)) <==> s.sh.holder == Some(e.t);
        OwnMove(sdk, s, e);
        MoveDiscipline(sdk, e.t, s.Pc(e.t), s.sh, e.choice);
      }
    }
  }
}
