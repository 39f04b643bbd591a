/** What every interleaving of saves, loads, clears and crashes keeps of the cache file. */
module StorageSafety {
  import opened Wrappers
  import opened Domain
  import opened Storage

  // One complete cache file: the initial one, or one record some `save` was called with.
  ghost predicate Whole(codec: Codec, initial: Option<Bytes>, saved: set<Record>, bytes: Bytes) {
    initial == Some(bytes) || exists rec :: rec in saved && Encodes(codec, rec, bytes)
  }

  ghost predicate Encodes(codec: Codec, rec: Record, bytes: Bytes) {
    exists stamp :: codec.encode(rec, stamp) == bytes
  }

  // What a load may answer: the initial file's record, or a saved one.
  predicate Expected(codec: Codec, initial: Option<Bytes>, saved: set<Record>, result: Option<Record>) {
    result.None? || result.value in saved || (initial.Some? && result == codec.decode(initial.value))
  }

  // The number in the temporary name a `save` uses, from its increment of the counter on.
  function Number(pc: Pc): Option<nat> {
    match pc
    case SaveOpen(_, n, _) => Some(n)
    case SaveWrite(_, n, _, _, _) => Some(n)
    case SaveRename(_, n, _) => Some(n)
    case SaveRemove(n) => Some(n)
    case _ => None
  }

  // The temporary name `at` holds exactly `bytes`.
  predicate Holds(disk: Disk, name: Name, bytes: Bytes) {
    name in disk.dir && disk.dir[name] in disk.data && disk.data[disk.dir[name]] == bytes
  }

  // No temporary name leads to `ino`, so nobody will write to it.
  ghost predicate Frozen(disk: Disk, ino: Ino) {
    ino in disk.data && forall name :: name in disk.dir && disk.dir[name] == ino ==> name == Target
  }

  ghost predicate SaveKnows(codec: Codec, initial: Option<Bytes>, saved: set<Record>, disk: Disk, pid: Pid, pc: Pc) {
    match pc
    case SaveDir(rec) => rec in saved
    case SaveStamp(rec) => rec in saved
    case SaveCount(rec, bytes) => rec in saved && Encodes(codec, rec, bytes)
    case SaveOpen(rec, n, bytes) => rec in saved && Encodes(codec, rec, bytes)
    case SaveWrite(rec, n, ino, bytes, done) =>
      rec in saved && Encodes(codec, rec, bytes) && done <= |bytes| && Holds(disk, Temp(pid, n), bytes[..done])
      && disk.dir[Temp(pid, n)] == ino
    case SaveRename(rec, n, bytes) => rec in saved && Encodes(codec, rec, bytes) && Holds(disk, Temp(pid, n), bytes)
    case _ => true
  }

  ghost predicate LoadKnows(codec: Codec, initial: Option<Bytes>, saved: set<Record>, disk: Disk, pc: Pc) {
    match pc
    case LoadRead(ino, got) =>
      Frozen(disk, ino) && got <= disk.data[ino] && Whole(codec, initial, saved, disk.data[ino])
    case Loaded(result) => Expected(codec, initial, saved, result)
    case _ => true
  }

  ghost predicate Knows(codec: Codec, initial: Option<Bytes>, saved: set<Record>, disk: Disk, counter: nat, pid: Pid,
                        pc: Pc)
  {
    && SaveKnows(codec, initial, saved, disk, pid, pc)
    && LoadKnows(codec, initial, saved, disk, pc)
    && (Number(pc).Some? ==> Number(pc).value < counter)
  }

  // Every name has an inode of its own, and the cache file is absent or whole.
  ghost predicate DiskInv(codec: Codec, initial: Option<Bytes>, saved: set<Record>, disk: Disk) {
    && (forall name :: name in disk.dir ==> disk.dir[name] in disk.data)
    && (forall ino :: ino in disk.data ==> ino < disk.next)
    && (forall a, b :: a in disk.dir && b in disk.dir && disk.dir[a] == disk.dir[b] ==> a == b)
    && (Target in disk.dir ==> Whole(codec, initial, saved, disk.data[disk.dir[Target]]))
  }

  ghost predicate ThreadInv(codec: Codec, initial: Option<Bytes>, s: State, t: Tid) {
    t in s.threads ==>
      var th := s.threads[t];
      th.pid in s.counters && Knows(codec, initial, s.saved, s.disk, s.counters[th.pid], th.pid, th.pc)
  }

  // Two calls of live processes never use the same temporary name.
  predicate NamesApart(a: Thread, b: Thread) {
    a.pid == b.pid && Number(a.pc).Some? ==> Number(a.pc) != Number(b.pc)
  }

  ghost predicate Apart(s: State, t: Tid, u: Tid) {
    t in s.threads && u in s.threads && t != u ==> NamesApart(s.threads[t], s.threads[u])
  }

  ghost predicate Inv(codec: Codec, initial: Option<Bytes>, s: State) {
    && DiskInv(codec, initial, s.saved, s.disk)
    && (forall t: Tid :: ThreadInv(codec, initial, s, t))
    && (forall t: Tid, u: Tid :: Apart(s, t, u))
  }

  /******* The stepping thread *******/

  lemma {:induction false} SaveKeepsDisk(codec: Codec, initial: Option<Bytes>, saved: set<Record>, pid: Pid, pc: Pc,
                                         disk: Disk, counter: nat, ch: Choice)
    requires DiskInv(codec, initial, saved, disk) && Knows(codec, initial, saved, disk, counter, pid, pc)
    requires SaveMove(codec, pid, pc, disk, counter, ch).Move?
    ensures DiskInv(codec, initial, saved, SaveMove(codec, pid, pc, disk, counter, ch).disk)
  {
  }

  lemma TakesOn(bytes: Bytes, done: nat, size: nat)
    requires done + size <= |bytes|
    ensures bytes[..done] + bytes[done..done + size] == bytes[..done + size]
  {
  }

  lemma {:induction false} SaveKnowsNext(codec: Codec, initial: Option<Bytes>, saved: set<Record>, pid: Pid, pc: Pc,
                                         disk: Disk, counter: nat, ch: Choice)
    requires DiskInv(codec, initial, saved, disk) && Knows(codec, initial, saved, disk, counter, pid, pc)
    requires SaveMove(codec, pid, pc, disk, counter, ch).Move?
    ensures var m := SaveMove(codec, pid, pc, disk, counter, ch);
            Knows(codec, initial, saved, m.disk, m.counter, pid, m.pc)
  {
    match (pc, ch)
    case (SaveWrite(_, n, ino, bytes, done), Chunk(size)) =>
      if done + size <= |bytes| {
        TakesOn(bytes, done, size);
      }
    case (SaveWrite(_, n, ino, bytes, done), Go) =>
      if done == |bytes| {
        assert bytes[..done] == bytes;
      }
    case (SaveOpen(_, n, bytes), _) =>
      assert bytes[..0] == [];
    case _ =>
  }

  lemma {:induction false} WholeDecodesAsExpected(codec: Codec, initial: Option<Bytes>, saved: set<Record>,
                                                  bytes: Bytes)
    requires Lawful(codec) && Whole(codec, initial, saved, bytes)
    ensures Expected(codec, initial, saved, codec.decode(bytes))
  {
    if initial != Some(bytes) {
      var rec :| rec in saved && Encodes(codec, rec, bytes);
      var stamp :| codec.encode(rec, stamp) == bytes;
      assert codec.decode(codec.encode(rec, stamp)) == Some(rec);
    }
  }

  lemma {:induction false} LoadKnowsNext(codec: Codec, initial: Option<Bytes>, saved: set<Record>, pid: Pid, pc: Pc,
                                         disk: Disk, counter: nat, ch: Choice)
    requires Lawful(codec) && DiskInv(codec, initial, saved, disk)
    requires Knows(codec, initial, saved, disk, counter, pid, pc)
    requires LoadMove(codec, pc, disk, counter, ch).Move?
    ensures var m := LoadMove(codec, pc, disk, counter, ch);
            m.disk == disk && m.counter == counter && Knows(codec, initial, saved, m.disk, m.counter, pid, m.pc)
  {
    match (pc, ch)
    case (LoadRead(ino, got), Go) =>
      assert got <= disk.data[ino] && |got| == |disk.data[ino]|;
      assert got == disk.data[ino];
      WholeDecodesAsExpected(codec, initial, saved, got);
    case (LoadRead(ino, got), Chunk(size)) =>
    case _ =>
  }

  /******* The other threads *******/

  // What a step of a process that uses the temporary name `own`, if any, leaves alone: every other
  // temporary name, and the bytes of every inode that `own` does not lead to.
  ghost predicate Harmless(disk: Disk, disk': Disk, own: Option<Name>) {
    && (forall name: Name :: name.Temp? && own != Some(name) ==>
          && (name in disk'.dir <==> name in disk.dir)
          && (name in disk.dir && name in disk'.dir ==> disk'.dir[name] == disk.dir[name]))
    && (forall name :: own == Some(name) && name in disk'.dir ==>
          disk'.dir[name] == if name in disk.dir then disk.dir[name] else disk.next)
    && (forall ino :: ino in disk.data ==>
          ino in disk'.data
          && (disk'.data[ino] == disk.data[ino] || (own.Some? && own.value in disk.dir && disk.dir[own.value] == ino)))
  }

  function OwnName(pid: Pid, pc: Pc): Option<Name> {
    if Number(pc).Some? then Some(Temp(pid, Number(pc).value)) else None
  }

  lemma {:induction false} OpensAndWritesAreHarmless(codec: Codec, initial: Option<Bytes>, saved: set<Record>,
                                                     pid: Pid, pc: Pc, disk: Disk, counter: nat, ch: Choice)
    requires pc.SaveOpen? || pc.SaveWrite?
    requires DiskInv(codec, initial, saved, disk) && Knows(codec, initial, saved, disk, counter, pid, pc)
    requires ThreadMove(codec, pid, pc, disk, counter, ch).Move?
    ensures Harmless(disk, ThreadMove(codec, pid, pc, disk, counter, ch).disk, OwnName(pid, pc))
    ensures counter <= ThreadMove(codec, pid, pc, disk, counter, ch).counter
  {
  }

  lemma {:induction false} StepsAreHarmless(codec: Codec, initial: Option<Bytes>, saved: set<Record>, pid: Pid,
                                            pc: Pc, disk: Disk, counter: nat, ch: Choice)
    requires DiskInv(codec, initial, saved, disk) && Knows(codec, initial, saved, disk, counter, pid, pc)
    requires ThreadMove(codec, pid, pc, disk, counter, ch).Move?
    ensures Harmless(disk, ThreadMove(codec, pid, pc, disk, counter, ch).disk, OwnName(pid, pc))
    ensures counter <= ThreadMove(codec, pid, pc, disk, counter, ch).counter
  {
    if pc.SaveOpen? || pc.SaveWrite? {
      OpensAndWritesAreHarmless(codec, initial, saved, pid, pc, disk, counter, ch);
    }
  }

  lemma {:induction false} KnowledgeIsStable(codec: Codec, initial: Option<Bytes>, saved: set<Record>,
                                             saved': set<Record>, disk: Disk, disk': Disk,
                                             own: Option<Name>, counter: nat, counter': nat, pid: Pid, pc: Pc)
    requires DiskInv(codec, initial, saved, disk) && Knows(codec, initial, saved, disk, counter, pid, pc)
    requires Harmless(disk, disk', own) && saved <= saved' && counter <= counter'
    requires own.Some? ==> own.value.Temp? && own != OwnName(pid, pc)
    ensures Knows(codec, initial, saved', disk', counter', pid, pc)
  {
  }

  lemma {:induction false} StepKeepsKnowledge(codec: Codec, initial: Option<Bytes>, saved: set<Record>, pid: Pid,
                                              pc: Pc, disk: Disk, counter: nat, ch: Choice)
    requires Lawful(codec) && DiskInv(codec, initial, saved, disk)
    requires Knows(codec, initial, saved, disk, counter, pid, pc)
    requires ThreadMove(codec, pid, pc, disk, counter, ch).Move?
    ensures var m := ThreadMove(codec, pid, pc, disk, counter, ch);
            && DiskInv(codec, initial, saved, m.disk) && Knows(codec, initial, saved, m.disk, m.counter, pid, m.pc)
            && (Number(m.pc).Some? ==> Number(m.pc) == Number(pc) || Number(m.pc) == Some(counter))
  {
    if pc.LoadOpen? || pc.LoadRead? {
      LoadKnowsNext(codec, initial, saved, pid, pc, disk, counter, ch);
    } else if !pc.ClearRemove? {
      SaveKeepsDisk(codec, initial, saved, pid, pc, disk, counter, ch);
      SaveKnowsNext(codec, initial, saved, pid, pc, disk, counter, ch);
    }
  }

  lemma {:induction false} RunKeepsThreads(codec: Codec, initial: Option<Bytes>, s: State, t: Tid, ch: Choice, u: Tid)
    requires Lawful(codec) && Inv(codec, initial, s) && Next(codec, s, Run(t, ch)).Some?
    ensures ThreadInv(codec, initial, Next(codec, s, Run(t, ch)).value, u)
    ensures Apart(Next(codec, s, Run(t, ch)).value, t, u) && Apart(Next(codec, s, Run(t, ch)).value, u, t)
  {
    assert ThreadInv(codec, initial, s, t) && ThreadInv(codec, initial, s, u);
    assert Apart(s, t, u) && Apart(s, u, t);
    var th := s.threads[t];
    var counter := s.counters[th.pid];
    StepKeepsKnowledge(codec, initial, s.saved, th.pid, th.pc, s.disk, counter, ch);
    StepsAreHarmless(codec, initial, s.saved, th.pid, th.pc, s.disk, counter, ch);
    if u in s.threads && u != t {
      var m := ThreadMove(codec, th.pid, th.pc, s.disk, counter, ch);
      var other := s.threads[u];
      KnowledgeIsStable(codec, initial, s.saved, s.saved, s.disk, m.disk, OwnName(th.pid, th.pc), s.counters[other.pid],
                        if other.pid == th.pid then m.counter else s.counters[other.pid], other.pid, other.pc);
    }
  }

  lemma {:induction false} RunKeepsInv(codec: Codec, initial: Option<Bytes>, s: State, t: Tid, ch: Choice)
    requires Lawful(codec) && Inv(codec, initial, s) && Next(codec, s, Run(t, ch)).Some?
    ensures Inv(codec, initial, Next(codec, s, Run(t, ch)).value)
  {
    var s' := Next(codec, s, Run(t, ch)).value;
    var th := s.threads[t];
    assert ThreadInv(codec, initial, s, t);
    StepKeepsKnowledge(codec, initial, s.saved, th.pid, th.pc, s.disk, s.counters[th.pid], ch);
    forall u: Tid ensures ThreadInv(codec, initial, s', u) {
      RunKeepsThreads(codec, initial, s, t, ch, u);
    }
    forall u: Tid, v: Tid ensures Apart(s', u, v) {
      assert Apart(s, u, v);
      if u == t {
        RunKeepsThreads(codec, initial, s, t, ch, v);
      } else if v == t {
        RunKeepsThreads(codec, initial, s, t, ch, u);
      }
    }
  }

  lemma {:induction false} CallKeepsInv(codec: Codec, initial: Option<Bytes>, s: State, t: Tid, pid: Pid, op: Op)
    requires Inv(codec, initial, s) && Next(codec, s, Call(t, pid, op)).Some?
    ensures Inv(codec, initial, Next(codec, s, Call(t, pid, op)).value)
  {
    var s' := Next(codec, s, Call(t, pid, op)).value;
    forall u: Tid ensures ThreadInv(codec, initial, s', u) {
      assert ThreadInv(codec, initial, s, u);
      if u in s.threads {
        var th := s.threads[u];
        KnowledgeIsStable(codec, initial, s.saved, s'.saved, s.disk, s.disk, None,
                          s.counters[th.pid], s.counters[th.pid], th.pid, th.pc);
      }
    }
    forall u: Tid, v: Tid ensures Apart(s', u, v) {
      assert Apart(s, u, v);
    }
  }

  lemma {:induction false} ProcessKeepsInv(codec: Codec, initial: Option<Bytes>, s: State, e: Event)
    requires Inv(codec, initial, s) && (e.Start? || e.Crash?) && Next(codec, s, e).Some?
    ensures Inv(codec, initial, Next(codec, s, e).value)
  {
    var s' := Next(codec, s, e).value;
    forall u: Tid ensures ThreadInv(codec, initial, s', u) {
      assert ThreadInv(codec, initial, s, u);
    }
    forall u: Tid, v: Tid ensures Apart(s', u, v) {
      assert Apart(s, u, v);
    }
  }

  lemma {:induction false} NextKeepsInv(codec: Codec, initial: Option<Bytes>, s: State, e: Event)
    requires Lawful(codec) && Inv(codec, initial, s) && Next(codec, s, e).Some?
    ensures Inv(codec, initial, Next(codec, s, e).value)
  {
    match e
    case Run(t, ch) => RunKeepsInv(codec, initial, s, t, ch);
    case Call(t, pid, op) => CallKeepsInv(codec, initial, s, t, pid, op);
    case _ => ProcessKeepsInv(codec, initial, s, e);
  }

  lemma {:induction false} ExecKeepsInv(codec: Codec, initial: Option<Bytes>, s: State, es: seq<Event>)
    requires Lawful(codec) && Inv(codec, initial, s) && Exec(codec, s, es).Some?
    ensures Inv(codec, initial, Exec(codec, s, es).value)
    decreases |es|
  {
    if es == [] {
    } else {
      NextKeepsInv(codec, initial, s, es[0]);
      ExecKeepsInv(codec, initial, Next(codec, s, es[0]).value, es[1..]);
    }
  }

  /******* What follows for every run *******/

  // In every interleaving, with crashes at any step: the cache file is absent, as it was at the start,
  // or one complete record some `save` was called with; every load that has ended answers with one of
  // these or with nothing; and no two calls under way use the same temporary file.
  lemma {:induction false} NoTornCache(codec: Codec, initial: Option<Bytes>, origin: State, es: seq<Event>)
    requires Lawful(codec) && Initial(origin, initial) && Exec(codec, origin, es).Some?
    ensures var s := Exec(codec, origin, es).value;
            && (Target in s.disk.dir ==>
                  s.disk.dir[Target] in s.disk.data && Whole(codec, initial, s.saved, s.disk.data[s.disk.dir[Target]]))
            && (forall t: Tid :: t in s.threads && s.threads[t].pc.Loaded? ==>
                  Expected(codec, initial, s.saved, s.threads[t].pc.result))
            && (forall t: Tid, u: Tid :: Apart(s, t, u))
  {
    ExecKeepsInv(codec, initial, origin, es);
    var s := Exec(codec, origin, es).value;
    forall t: Tid | t in s.threads && s.threads[t].pc.Loaded?
      ensures Expected(codec, initial, s.saved, s.threads[t].pc.result)
    {
      assert ThreadInv(codec, initial, s, t);
    }
  }

  // The bytes of the cache file, if there is one.
  function Cached(disk: Disk): Option<Bytes> {
    if Target in disk.dir && disk.dir[Target] in disk.data then Some(disk.data[disk.dir[Target]]) else None
  }

  lemma {:induction false} TargetMoves(codec: Codec, initial: Option<Bytes>, saved: set<Record>, pid: Pid, pc: Pc,
                                       disk: Disk, counter: nat, ch: Choice)
    requires DiskInv(codec, initial, saved, disk) && Knows(codec, initial, saved, disk, counter, pid, pc)
    requires ThreadMove(codec, pid, pc, disk, counter, ch).Move?
    ensures var disk' := ThreadMove(codec, pid, pc, disk, counter, ch).disk;
            || Cached(disk') == Cached(disk)
            || (pc.SaveRename? && Encodes(codec, pc.rec, pc.bytes) && Cached(disk') == Some(pc.bytes))
            || (pc.ClearRemove? && Cached(disk').None?)
  {
  }

  // A step changes the cache file only when a `save` renames over it, which leaves exactly the record
  // that `save` was called with, or when a `clear` removes it. A `save` that fails, or dies, anywhere
  // before its rename leaves the file as it was.
  lemma {:induction false} OnlyRenamesAndClears(codec: Codec, initial: Option<Bytes>, origin: State, es: seq<Event>,
                                                e: Event)
    requires Lawful(codec) && Initial(origin, initial) && Exec(codec, origin, es).Some?
    requires Next(codec, Exec(codec, origin, es).value, e).Some?
    ensures var s := Exec(codec, origin, es).value; var s' := Next(codec, s, e).value;
            Cached(s'.disk) != Cached(s.disk) ==>
              && e.Run? && e.t in s.threads
              && var pc := s.threads[e.t].pc;
                 || (pc.SaveRename? && s'.threads[e.t].pc.Returned? && Cached(s'.disk).Some?
                     && codec.decode(Cached(s'.disk).value) == Some(pc.rec))
                 || (pc.ClearRemove? && Cached(s'.disk).None?)
  {
    ExecKeepsInv(codec, initial, origin, es);
    var s := Exec(codec, origin, es).value;
    if e.Run? {
      assert ThreadInv(codec, initial, s, e.t);
      var th := s.threads[e.t];
      TargetMoves(codec, initial, s.saved, th.pid, th.pc, s.disk, s.counters[th.pid], e.choice);
      if th.pc.SaveRename? {
        var stamp :| codec.encode(th.pc.rec, stamp) == th.pc.bytes;
        assert codec.decode(codec.encode(th.pc.rec, stamp)) == Some(th.pc.rec);
      }
    }
  }

  /******* What a load reads *******/

  // Past its open.
  predicate Reading(s: State, t: Tid) {
    t in s.threads && (s.threads[t].pc.LoadRead? || s.threads[t].pc.Loaded?)
  }

  // In state `j` thread `t` is in the load that opened the cache file with step `i`.
  ghost predicate OpenedWith(ss: seq<State>, es: seq<Event>, i: nat, j: nat, t: Tid) {
    && i < j < |ss| && i < |es| && es[i] == Run(t, Io(true))
    && t in ss[i].threads && ss[i].threads[t].pc == LoadOpen && Cached(ss[i].disk).Some?
    && forall k :: i < k <= j ==> Reading(ss[k], t)
  }

  lemma {:induction false} InvAlong(codec: Codec, initial: Option<Bytes>, ss: seq<State>, es: seq<Event>, j: nat)
    requires Lawful(codec) && Behaviour(codec, ss, es) && Initial(ss[0], initial) && j < |ss|
    ensures Inv(codec, initial, ss[j])
    decreases j
  {
    if j == 0 {
    } else {
      InvAlong(codec, initial, ss, es, j - 1);
      assert Next(codec, ss[j - 1], es[j - 1]) == Some(ss[j]);
      NextKeepsInv(codec, initial, ss[j - 1], es[j - 1]);
    }
  }

  // Nobody writes to a file that a load has open, renamed over or removed as it may be.
  lemma {:induction false} OpenFilesStay(codec: Codec, initial: Option<Bytes>, s: State, e: Event, t: Tid)
    requires Lawful(codec) && Inv(codec, initial, s) && Next(codec, s, e).Some?
    requires t in s.threads && s.threads[t].pc.LoadRead?
    ensures var ino, disk' := s.threads[t].pc.ino, Next(codec, s, e).value.disk;
            ino in s.disk.data && ino in disk'.data && disk'.data[ino] == s.disk.data[ino]
  {
    assert ThreadInv(codec, initial, s, t);
    if e.Run? {
      assert ThreadInv(codec, initial, s, e.t);
      var th := s.threads[e.t];
      StepsAreHarmless(codec, initial, s.saved, th.pid, th.pc, s.disk, s.counters[th.pid], e.choice);
    }
  }

  // A step into a load's reading: its open, or a step of its own, or someone else's.
  lemma {:induction false} ReadingGoesOn(codec: Codec, s: State, e: Event, t: Tid)
    requires Next(codec, s, e).Some? && Reading(Next(codec, s, e).value, t)
    ensures t in s.threads
    ensures var pc, pc' := s.threads[t].pc, Next(codec, s, e).value.threads[t].pc;
            if e.Run? && e.t == t then
              || (pc == LoadOpen && e.choice == Io(true) && Target in s.disk.dir
                  && pc' == LoadRead(s.disk.dir[Target], []))
              || (pc == LoadOpen && pc' == Loaded(None))
              || (pc.LoadRead? && pc'.LoadRead? && pc'.ino == pc.ino)
              || (pc.LoadRead? && pc' == Loaded(None))
              || (pc.LoadRead? && pc.ino in s.disk.data && |pc.got| == |s.disk.data[pc.ino]|
                  && pc' == Loaded(codec.decode(pc.got)))
            else pc' == pc
  {
  }

  lemma {:induction false} ReadsWhatItOpened(codec: Codec, initial: Option<Bytes>, ss: seq<State>, es: seq<Event>,
                                             j: nat, t: Tid)
    returns (i: nat)
    requires Lawful(codec) && Behaviour(codec, ss, es) && Initial(ss[0], initial) && j < |ss|
    requires t in ss[j].threads && ss[j].threads[t].pc.LoadRead?
    ensures OpenedWith(ss, es, i, j, t) && ss[j].threads[t].pc.ino in ss[j].disk.data
    ensures Cached(ss[i].disk) == Some(ss[j].disk.data[ss[j].threads[t].pc.ino])
    decreases j
  {
    var s, e := ss[j - 1], es[j - 1];
    assert Next(codec, s, e) == Some(ss[j]);
    InvAlong(codec, initial, ss, es, j - 1);
    ReadingGoesOn(codec, s, e, t);
    if s.threads[t].pc == LoadOpen {
      i := j - 1;
    } else {
      i := ReadsWhatItOpened(codec, initial, ss, es, j - 1, t);
      OpenFilesStay(codec, initial, s, e, t);
    }
  }

  // Under every interleaving, whatever is saved, renamed over or cleared while it reads: a load that has
  // ended answers nothing, or exactly what the cache file held when this load opened it.
  lemma {:induction false} LoadsAnswerTheirOpen(codec: Codec, initial: Option<Bytes>, ss: seq<State>, es: seq<Event>,
                                                j: nat, t: Tid)
    returns (i: nat)
    requires Lawful(codec) && Behaviour(codec, ss, es) && Initial(ss[0], initial) && j < |ss|
    requires t in ss[j].threads && ss[j].threads[t].pc.Loaded?
    ensures var result := ss[j].threads[t].pc.result;
            result.None?
            || (OpenedWith(ss, es, i, j, t) && result == codec.decode(Cached(ss[i].disk).value))
    decreases j
  {
    var s, e := ss[j - 1], es[j - 1];
    assert Next(codec, s, e) == Some(ss[j]);
    ReadingGoesOn(codec, s, e, t);
    i := 0;
    if s.threads[t].pc.Loaded? {
      i := LoadsAnswerTheirOpen(codec, initial, ss, es, j - 1, t);
    } else if s.threads[t].pc.LoadRead? {
      i := ReadsWhatItOpened(codec, initial, ss, es, j - 1, t);
      InvAlong(codec, initial, ss, es, j - 1);
      assert ThreadInv(codec, initial, s, t);
      var pc := s.threads[t].pc;
      if |pc.got| == |s.disk.data[pc.ino]| {
        assert pc.got == s.disk.data[pc.ino];
      }
      assert OpenedWith(ss, es, i, j, t);
    }
  }

  /******* No files left behind *******/

  // The call under way that uses the temporary file `name`.
  predicate Uses(th: Thread, name: Name) {
    OwnName(th.pid, th.pc) == Some(name)
  }

  ghost predicate Tidy(s: State) {
    forall name :: name in s.disk.dir && name != Target ==> exists t: Tid :: t in s.threads && Uses(s.threads[t], name)
  }

  // No process dies, and every removal of a temporary file works.
  predicate Careful(s: State, e: Event) {
    !e.Crash? && !(e.Run? && e.choice == Io(false) && e.t in s.threads && s.threads[e.t].pc.SaveRemove?)
  }

  ghost predicate CarefulRun(codec: Codec, s: State, es: seq<Event>)
    decreases |es|
  {
    es == [] || (Careful(s, es[0])
                 && (Next(codec, s, es[0]).Some? ==> CarefulRun(codec, Next(codec, s, es[0]).value, es[1..])))
  }

  lemma {:induction false} StepTidies(codec: Codec, pid: Pid, pc: Pc, disk: Disk, counter: nat, ch: Choice, name: Name)
    requires ThreadMove(codec, pid, pc, disk, counter, ch).Move? && !(pc.SaveRemove? && ch == Io(false))
    requires name != Target && name in ThreadMove(codec, pid, pc, disk, counter, ch).disk.dir
    ensures var m := ThreadMove(codec, pid, pc, disk, counter, ch);
            if OwnName(pid, pc) == Some(name) then OwnName(pid, m.pc) == Some(name) else name in disk.dir
  {
  }

  lemma {:induction false} NextKeepsTidy(codec: Codec, s: State, e: Event)
    requires Tidy(s) && Careful(s, e) && Next(codec, s, e).Some?
    ensures Tidy(Next(codec, s, e).value)
  {
    var s' := Next(codec, s, e).value;
    forall name | name in s'.disk.dir && name != Target
      ensures exists t: Tid :: t in s'.threads && Uses(s'.threads[t], name)
    {
      if e.Run? && Uses(s.threads[e.t], name) {
        var th := s.threads[e.t];
        StepTidies(codec, th.pid, th.pc, s.disk, s.counters[th.pid], e.choice, name);
        assert Uses(s'.threads[e.t], name);
      } else {
        if e.Run? {
          var th := s.threads[e.t];
          StepTidies(codec, th.pid, th.pc, s.disk, s.counters[th.pid], e.choice, name);
        }
        var t: Tid :| t in s.threads && Uses(s.threads[t], name);
        assert t in s'.threads && Uses(s'.threads[t], name);
      }
    }
  }

  // On a run without crashes and failed removals, overlapping or failing saves leave no temporary
  // file behind: whenever no `save` is under way, the cache file is the only one there is.
  lemma {:induction false} NoFilesLeftBehind(codec: Codec, s: State, es: seq<Event>)
    requires Tidy(s) && CarefulRun(codec, s, es) && Exec(codec, s, es).Some?
    ensures Tidy(Exec(codec, s, es).value)
    ensures var s' := Exec(codec, s, es).value;
            (forall t: Tid :: t in s'.threads ==> Number(s'.threads[t].pc).None?) ==> s'.disk.dir.Keys <= {Target}
    decreases |es|
  {
    if es == [] {
    } else {
      NextKeepsTidy(codec, s, es[0]);
      NoFilesLeftBehind(codec, Next(codec, s, es[0]).value, es[1..]);
    }
  }
}
