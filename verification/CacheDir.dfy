/** `save`, `load` and `clear` as the calls they are (src/storage.rs): each runs its file operations in
    order, and is one of the runs of the interleaved model. */
module CacheDir {
  import opened Wrappers
  import opened Domain
  import opened Storage
  import opened StorageSafety

  // Which file operations of one call work; `write` is how many bytes can be written.
  datatype Faults = Faults(dir: bool, open: bool, write: nat, rename: bool, remove: bool)

  // Every name leads to an inode, and no inode is numbered past `next`.
  predicate Sound(disk: Disk) {
    && (forall name :: name in disk.dir ==> disk.dir[name] in disk.data)
    && (forall ino :: ino in disk.data ==> ino < disk.next)
  }

  // From `s` the events `es` lead to a state with this disk and counter in which thread `t` is at `pc`.
  ghost predicate Reaches(codec: Codec, s: State, es: seq<Event>, t: Tid, pid: Pid, pc: Pc, disk: Disk, counter: nat) {
    && Exec(codec, s, es).Some?
    && var s' := Exec(codec, s, es).value;
       && s'.disk == disk && pid in s'.counters && s'.counters[pid] == counter
       && t in s'.threads && s'.threads[t] == Thread(pid, pc)
  }

  // Every one of `es` is a step of `t`.
  predicate Alone(es: seq<Event>, t: Tid) {
    forall e :: e in es ==> (e.Run? && e.t == t) || (e.Call? && e.t == t)
  }

  lemma {:induction false} ExecThen(codec: Codec, s: State, es: seq<Event>, e: Event)
    requires Exec(codec, s, es).Some?
    ensures Exec(codec, s, es + [e]) == Next(codec, Exec(codec, s, es).value, e)
    decreases |es|
  {
    if es == [] {
      assert ([e])[1..] == [];
      assert es + [e] == [e];
    } else {
      assert (es + [e])[1..] == es[1..] + [e];
      ExecThen(codec, Next(codec, s, es[0]).value, es[1..], e);
    }
  }

  lemma {:induction false} Enters(codec: Codec, s: State, t: Tid, pid: Pid, op: Op)
    requires t !in s.threads && pid in s.counters
    ensures Reaches(codec, s, [Call(t, pid, op)], t, pid, Enter(op), s.disk, s.counters[pid])
  {
    assert [Call(t, pid, op)][1..] == [];
  }

  lemma {:induction false} Steps(codec: Codec, s: State, es: seq<Event>, t: Tid, pid: Pid, pc: Pc, disk: Disk,
                                 counter: nat, ch: Choice)
    requires Reaches(codec, s, es, t, pid, pc, disk, counter)
    requires ThreadMove(codec, pid, pc, disk, counter, ch).Move?
    ensures var m := ThreadMove(codec, pid, pc, disk, counter, ch);
            Reaches(codec, s, es + [Run(t, ch)], t, pid, m.pc, m.disk, m.counter)
  {
    ExecThen(codec, s, es, Run(t, ch));
  }

  /******* What one call does on its own *******/

  datatype Result = Result(disk: Disk, ok: bool)

  // Creates the temporary file and writes to it; stops at the first operation that fails.
  function WriteTemp(pid: Pid, n: nat, bytes: Bytes, f: Faults, disk: Disk): Result {
    if !f.open || Temp(pid, n) in disk.dir then Result(disk, false)
    else
      Result(Disk(disk.dir[Temp(pid, n) := disk.next],
                  disk.data[disk.next := if |bytes| <= f.write then bytes else bytes[..f.write]], disk.next + 1),
             |bytes| <= f.write)
  }

  // Renames the written file into place; after any failure, removes it.
  function Commit(pid: Pid, n: nat, f: Faults, r: Result): Result {
    var tmp := Temp(pid, n);
    if r.ok && f.rename && tmp in r.disk.dir then
      Result(r.disk.(dir := (r.disk.dir - {tmp})[Target := r.disk.dir[tmp]]), true)
    else Result(if f.remove then r.disk.(dir := r.disk.dir - {tmp}) else r.disk, false)
  }

  function SaveEffect(pid: Pid, n: nat, bytes: Bytes, f: Faults, disk: Disk): Result {
    if f.dir then Commit(pid, n, f, WriteTemp(pid, n, bytes, f, disk)) else Result(disk, false)
  }

  // A save that succeeds leaves exactly the given bytes under the cache file's name; one that fails
  // leaves the cache file as it was. Either way no other name changes, and no temporary file stays
  // unless its removal fails.
  lemma {:induction false} SaveIsAllOrNothing(pid: Pid, n: nat, bytes: Bytes, f: Faults, disk: Disk)
    requires Sound(disk)
    ensures var r := SaveEffect(pid, n, bytes, f, disk);
            && Sound(r.disk)
            && (r.ok <==> f.dir && Temp(pid, n) !in disk.dir && f.open && |bytes| <= f.write && f.rename)
            && Cached(r.disk) == (if r.ok then Some(bytes) else Cached(disk))
            && (r.ok || (f.dir && f.remove) ==> Temp(pid, n) !in r.disk.dir)
            && forall name :: name != Target && name != Temp(pid, n) ==>
                 (name in r.disk.dir <==> name in disk.dir) && (name in disk.dir ==> r.disk.dir[name] == disk.dir[name])
  {
  }

  /******* Each call is a run of the interleaved model *******/

  lemma {:induction false} WriteTempRuns(codec: Codec, s: State, es: seq<Event>, t: Tid, pid: Pid, rec: Record,
                                         n: nat, bytes: Bytes,
                                         f: Faults, disk: Disk, counter: nat) returns (es': seq<Event>)
    requires Sound(disk) && Alone(es, t) && Reaches(codec, s, es, t, pid, SaveOpen(rec, n, bytes), disk, counter)
    ensures Alone(es', t)
    ensures var r := WriteTemp(pid, n, bytes, f, disk);
            Reaches(codec, s, es', t, pid, if r.ok then SaveRename(rec, n, bytes) else SaveRemove(n), r.disk, counter)
  {
    es' := es + [Run(t, Io(f.open))];
    Steps(codec, s, es, t, pid, SaveOpen(rec, n, bytes), disk, counter, Io(f.open));
    if f.open && Temp(pid, n) !in disk.dir {
      es' := BytesRun(codec, s, es', t, pid, rec, n, disk.next, bytes, f.write,
                      Disk(disk.dir[Temp(pid, n) := disk.next], disk.data[disk.next := []], disk.next + 1), counter);
      assert disk.data[disk.next := []][disk.next := WriteTemp(pid, n, bytes, f, disk).disk.data[disk.next]]
          == WriteTemp(pid, n, bytes, f, disk).disk.data;
    }
  }

  lemma {:induction false} BytesRun(codec: Codec, s: State, es: seq<Event>, t: Tid, pid: Pid, rec: Record, n: nat,
                                    ino: Ino, bytes: Bytes,
                                    limit: nat, disk: Disk, counter: nat) returns (es': seq<Event>)
    requires Alone(es, t) && Reaches(codec, s, es, t, pid, SaveWrite(rec, n, ino, bytes, 0), disk, counter)
    requires ino in disk.data && disk.data[ino] == []
    ensures Alone(es', t)
    ensures var fits := |bytes| <= limit;
            Reaches(codec, s, es', t, pid, if fits then SaveRename(rec, n, bytes) else SaveRemove(n),
                    disk.(data := disk.data[ino := if fits then bytes else bytes[..limit]]), counter)
  {
    var size := if |bytes| <= limit then |bytes| else limit;
    var ch := if size == |bytes| then Go else Io(false);
    Steps(codec, s, es, t, pid, SaveWrite(rec, n, ino, bytes, 0), disk, counter, Chunk(size));
    assert [] + bytes[0..size] == if |bytes| <= limit then bytes else bytes[..limit];
    var disk' := disk.(data := disk.data[ino := disk.data[ino] + bytes[0..size]]);
    Steps(codec, s, es + [Run(t, Chunk(size))], t, pid, SaveWrite(rec, n, ino, bytes, size), disk', counter, ch);
    es' := es + [Run(t, Chunk(size))] + [Run(t, ch)];
  }

  lemma {:induction false} CommitRuns(codec: Codec, s: State, es: seq<Event>, t: Tid, pid: Pid, rec: Record, n: nat,
                                      bytes: Bytes,
                                      f: Faults, r: Result, counter: nat) returns (es': seq<Event>)
    requires Alone(es, t)
    requires Reaches(codec, s, es, t, pid, if r.ok then SaveRename(rec, n, bytes) else SaveRemove(n), r.disk, counter)
    ensures Alone(es', t) && Reaches(codec, s, es', t, pid, Returned, Commit(pid, n, f, r).disk, counter)
  {
    es' := es;
    if r.ok {
      Steps(codec, s, es', t, pid, SaveRename(rec, n, bytes), r.disk, counter, Io(f.rename));
      es' := es' + [Run(t, Io(f.rename))];
    }
    if !(r.ok && f.rename && Temp(pid, n) in r.disk.dir) {
      Steps(codec, s, es', t, pid, SaveRemove(n), r.disk, counter, Io(f.remove));
      es' := es' + [Run(t, Io(f.remove))];
    }
  }

  lemma {:induction false} SaveStarts(codec: Codec, s: State, t: Tid, pid: Pid, rec: Record, secs: int)
    requires t !in s.threads && pid in s.counters
    ensures Reaches(codec, s, [Call(t, pid, Op.Save(rec)), Run(t, Io(true)), Run(t, Stamp(secs)), Run(t, Go)], t, pid,
                    SaveOpen(rec, s.counters[pid], codec.encode(rec, secs)), s.disk, s.counters[pid] + 1)
  {
    var es := [Call(t, pid, Op.Save(rec))];
    var bytes, counter := codec.encode(rec, secs), s.counters[pid];
    Enters(codec, s, t, pid, Op.Save(rec));
    Steps(codec, s, es, t, pid, SaveDir(rec), s.disk, counter, Io(true));
    Steps(codec, s, es + [Run(t, Io(true))], t, pid, SaveStamp(rec), s.disk, counter, Stamp(secs));
    Steps(codec, s, es + [Run(t, Io(true))] + [Run(t, Stamp(secs))], t, pid, SaveCount(rec, bytes),
          s.disk, counter, Go);
    assert es + [Run(t, Io(true))] + [Run(t, Stamp(secs))] + [Run(t, Go)]
        == [Call(t, pid, Op.Save(rec)), Run(t, Io(true)), Run(t, Stamp(secs)), Run(t, Go)];
  }

  // Undisturbed, the steps of a save do what the save does as one call.
  lemma {:induction false} SaveRuns(codec: Codec, s: State, t: Tid, pid: Pid, rec: Record, secs: int, f: Faults)
    returns (es: seq<Event>)
    requires t !in s.threads && pid in s.counters && Sound(s.disk)
    ensures Alone(es, t)
    ensures Reaches(codec, s, es, t, pid, Returned,
                    SaveEffect(pid, s.counters[pid], codec.encode(rec, secs), f, s.disk).disk,
                    if f.dir then s.counters[pid] + 1 else s.counters[pid])
  {
    var n := s.counters[pid];
    if f.dir {
      SaveStarts(codec, s, t, pid, rec, secs);
      es := [Call(t, pid, Op.Save(rec)), Run(t, Io(true)), Run(t, Stamp(secs)), Run(t, Go)];
      es := WriteTempRuns(codec, s, es, t, pid, rec, n, codec.encode(rec, secs), f, s.disk, n + 1);
      es := CommitRuns(codec, s, es, t, pid, rec, n, codec.encode(rec, secs), f,
                       WriteTemp(pid, n, codec.encode(rec, secs), f, s.disk), n + 1);
    } else {
      es := [Call(t, pid, Op.Save(rec))];
      Enters(codec, s, t, pid, Op.Save(rec));
      Steps(codec, s, es, t, pid, SaveDir(rec), s.disk, n, Io(false));
      es := es + [Run(t, Io(false))];
    }
  }

  lemma {:induction false} LoadRuns(codec: Codec, s: State, t: Tid, pid: Pid) returns (es: seq<Event>)
    requires t !in s.threads && pid in s.counters && Sound(s.disk)
    ensures Alone(es, t)
    ensures Reaches(codec, s, es, t, pid, Loaded(Decoded(codec, Cached(s.disk))), s.disk, s.counters[pid])
  {
    es := [Call(t, pid, Op.Load)];
    var n := s.counters[pid];
    Enters(codec, s, t, pid, Op.Load);
    Steps(codec, s, es, t, pid, LoadOpen, s.disk, n, Io(true));
    es := es + [Run(t, Io(true))];
    if Target in s.disk.dir {
      var ino := s.disk.dir[Target];
      var bytes := s.disk.data[ino];
      assert [] + bytes[0..|bytes|] == bytes;
      Steps(codec, s, es, t, pid, LoadRead(ino, []), s.disk, n, Chunk(|bytes|));
      es := es + [Run(t, Chunk(|bytes|))];
      Steps(codec, s, es, t, pid, LoadRead(ino, bytes), s.disk, n, Go);
      es := es + [Run(t, Go)];
    }
  }

  // The steps of a clear remove the cache file, unless the operation fails, and touch nothing else.
  lemma {:induction false} ClearRuns(codec: Codec, s: State, t: Tid, pid: Pid, works: bool)
    returns (es: seq<Event>, disk: Disk)
    requires t !in s.threads && pid in s.counters && Sound(s.disk)
    ensures Alone(es, t) && Reaches(codec, s, es, t, pid, Returned, disk, s.counters[pid])
    ensures disk.data == s.disk.data && disk.next == s.disk.next && Sound(disk)
    ensures Cached(disk) == if works then None else Cached(s.disk)
    ensures forall name :: name != Target || !works ==>
              (name in disk.dir <==> name in s.disk.dir)
              && (name in disk.dir ==> disk.dir[name] == s.disk.dir[name])
  {
    es := [Call(t, pid, Op.Clear)];
    Enters(codec, s, t, pid, Op.Clear);
    Steps(codec, s, es, t, pid, ClearRemove, s.disk, s.counters[pid], Io(works));
    disk := ThreadMove(codec, pid, ClearRemove, s.disk, s.counters[pid], Io(works)).disk;
    es := es + [Run(t, Io(works))];
  }

  function Decoded(codec: Codec, bytes: Option<Bytes>): Option<Record> {
    if bytes.Some? then codec.decode(bytes.value) else None
  }

  /******* The calls *******/

  // The directory of the cache file, as one process uses it.
  class Folder {
    const pid: Pid
    var disk: Disk
    var counter: nat

    constructor (pid: Pid, disk: Disk)
      ensures this.pid == pid && this.disk == disk && this.counter == 0
    {
      this.pid, this.disk, this.counter := pid, disk, 0;
    }

    method Save(codec: Codec, rec: Record, secs: int, f: Faults) returns (ok: bool)
      requires Sound(disk)
      modifies this
      ensures Sound(disk)
      ensures Result(disk, ok) == SaveEffect(pid, old(counter), codec.encode(rec, secs), f, old(disk))
      ensures counter == if f.dir then old(counter) + 1 else old(counter)
    {
      SaveIsAllOrNothing(pid, counter, codec.encode(rec, secs), f, disk);
      if !f.dir {
        return false;
      }
      var n := counter;
      counter := counter + 1;
      var tmp := Temp(pid, n);
      ok := CreateAndWrite(n, codec.encode(rec, secs), f);
      if ok && f.rename {
        disk := disk.(dir := (disk.dir - {tmp})[Target := disk.dir[tmp]]);
      } else {
        ok := false;
      }
      if !ok && f.remove {
        disk := disk.(dir := disk.dir - {tmp});
      }
    }

    method CreateAndWrite(n: nat, bytes: Bytes, f: Faults) returns (ok: bool)
      requires Sound(disk)
      modifies this`disk
      ensures Result(disk, ok) == WriteTemp(pid, n, bytes, f, old(disk))
      ensures ok ==> Temp(pid, n) in disk.dir
    {
      if !f.open || Temp(pid, n) in disk.dir {
        return false;
      }
      var ino := disk.next;
      disk := Disk(disk.dir[Temp(pid, n) := ino], disk.data[ino := []], ino + 1);
      ok := |bytes| <= f.write;
      disk := disk.(data := disk.data[ino := if ok then bytes else bytes[..f.write]]);
      assert disk.data == old(disk).data[ino := if ok then bytes else bytes[..f.write]];
    }

    // Nothing for a missing, unreadable or foreign file, all alike.
    method Load(codec: Codec, works: bool) returns (r: Option<Record>)
      requires Sound(disk)
      ensures r == if works then Decoded(codec, Cached(disk)) else None
    {
      if !works || Target !in disk.dir {
        return None;
      }
      r := codec.decode(disk.data[disk.dir[Target]]);
    }

    // A missing file is no error.
    method Clear(works: bool) returns (ok: bool)
      requires Sound(disk)
      modifies this`disk
      ensures Sound(disk)
      ensures ok <==> works || Target !in old(disk.dir)
      ensures ok ==> Cached(disk).None?
      ensures disk == if works then old(disk).(dir := old(disk).dir - {Target}) else old(disk)
    {
      ok := works || Target !in disk.dir;
      if works {
        disk := disk.(dir := disk.dir - {Target});
      }
    }
  }

  // What was saved is what is loaded, whatever was there before.
  method SaveThenLoad(folder: Folder, codec: Codec, rec: Record, secs: int, f: Faults)
    returns (ok: bool, r: Option<Record>)
    requires Lawful(codec) && Sound(folder.disk)
    modifies folder
    ensures r == if ok then Some(rec) else Decoded(codec, old(Cached(folder.disk)))
  {
    SaveIsAllOrNothing(folder.pid, folder.counter, codec.encode(rec, secs), f, folder.disk);
    ok := folder.Save(codec, rec, secs, f);
    assert codec.decode(codec.encode(rec, secs)) == Some(rec);
    r := folder.Load(codec, true);
  }
}
