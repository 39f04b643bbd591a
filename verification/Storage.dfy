/** The cache file (src/storage.rs) on a file system that several threads and processes share.

    `save`, `load` and `clear` are broken into the steps other calls can come between, any file
    operation may fail, bytes are written and read in pieces of any size, and a process may die at
    any step. Live processes have distinct ids, a rename is atomic, and an id may be used again. */
module Storage {
  import opened Wrappers
  import opened Domain
  import opened TempNames

  type Bytes = seq<Byte>
  type Pid = nat
  type Tid = nat
  type Ino = nat

  // The files `save` touches: the cache file and its own temporary ones.
  datatype Name = Target | Temp(pid: Pid, n: nat)

  function FileName(target: string, name: Name): string {
    match name
    case Target => target
    case Temp(pid, n) => TempName(target, pid, n)
  }

  // The JSON form of a record with the time it was saved at.
  datatype Codec = Codec(encode: (Record, int) -> Bytes, decode: Bytes -> Option<Record>)

  ghost predicate Lawful(codec: Codec) {
    forall rec, stamp :: codec.decode(codec.encode(rec, stamp)) == Some(rec)
  }

  // Names point to inodes; an inode lives on for whoever has it open after its name is gone.
  datatype Disk = Disk(dir: map<Name, Ino>, data: map<Ino, Bytes>, next: Ino)

  datatype Pc =
    | SaveDir(rec: Record)
    | SaveStamp(rec: Record)
    | SaveCount(rec: Record, bytes: Bytes)
    | SaveOpen(rec: Record, n: nat, bytes: Bytes)
    | SaveWrite(rec: Record, n: nat, ino: Ino, bytes: Bytes, done: nat)
    | SaveRename(rec: Record, n: nat, bytes: Bytes)
    | SaveRemove(n: nat)
    | LoadOpen
    | LoadRead(ino: Ino, got: Bytes)
    | Loaded(result: Option<Record>)
    | ClearRemove
    | Returned

  datatype Thread = Thread(pid: Pid, pc: Pc)

  // `counters` holds the live processes, each with its own counter; `saved` is every record `save`
  // has been called with.
  datatype State = State(disk: Disk, counters: map<Pid, nat>, threads: map<Tid, Thread>, saved: set<Record>)

  datatype Op = Save(rec: Record) | Load | Clear

  datatype Choice = Go | Io(works: bool) | Stamp(secs: int) | Chunk(size: nat)

  datatype Event =
    | Start(pid: Pid)
    | Crash(pid: Pid)
    | Call(t: Tid, pid: Pid, op: Op)
    | Run(t: Tid, choice: Choice)

  /******* Steps *******/

  datatype Move = Stuck | Move(pc: Pc, disk: Disk, counter: nat)

  function Enter(op: Op): Pc {
    match op
    case Save(rec) => SaveDir(rec)
    case Load => LoadOpen
    case Clear => ClearRemove
  }

  function SaveMove(codec: Codec, pid: Pid, pc: Pc, disk: Disk, counter: nat, ch: Choice): Move {
    match (pc, ch)
    case (SaveDir(rec), Io(works)) => Move(if works then SaveStamp(rec) else Returned, disk, counter)
    case (SaveStamp(rec), Stamp(secs)) => Move(SaveCount(rec, codec.encode(rec, secs)), disk, counter)
    case (SaveCount(rec, bytes), Go) => Move(SaveOpen(rec, counter, bytes), disk, counter + 1)
    case (SaveOpen(rec, n, bytes), Io(works)) =>
      if !works || Temp(pid, n) in disk.dir then Move(SaveRemove(n), disk, counter)
      else
        Move(SaveWrite(rec, n, disk.next, bytes, 0),
             Disk(disk.dir[Temp(pid, n) := disk.next], disk.data[disk.next := []], disk.next + 1), counter)
    case (SaveWrite(rec, n, ino, bytes, done), Io(false)) => Move(SaveRemove(n), disk, counter)
    case (SaveWrite(rec, n, ino, bytes, done), Chunk(size)) =>
      if ino in disk.data && done + size <= |bytes| then
        Move(SaveWrite(rec, n, ino, bytes, done + size),
             disk.(data := disk.data[ino := disk.data[ino] + bytes[done..done + size]]), counter)
      else Stuck
    case (SaveWrite(rec, n, ino, bytes, done), Go) =>
      if done == |bytes| then Move(SaveRename(rec, n, bytes), disk, counter) else Stuck
    case (SaveRename(rec, n, bytes), Io(works)) =>
      var tmp := Temp(pid, n);
      if works && tmp in disk.dir then
        Move(Returned, disk.(dir := (disk.dir - {tmp})[Target := disk.dir[tmp]]), counter)
      else Move(SaveRemove(n), disk, counter)
    case (SaveRemove(n), Io(works)) =>
      Move(Returned, if works then disk.(dir := disk.dir - {Temp(pid, n)}) else disk, counter)
    case _ => Stuck
  }

  function LoadMove(codec: Codec, pc: Pc, disk: Disk, counter: nat, ch: Choice): Move {
    match (pc, ch)
    case (LoadOpen, Io(works)) =>
      if works && Target in disk.dir then Move(LoadRead(disk.dir[Target], []), disk, counter)
      else Move(Loaded(None), disk, counter)
    case (LoadRead(ino, got), Io(false)) => Move(Loaded(None), disk, counter)
    case (LoadRead(ino, got), Chunk(size)) =>
      if ino in disk.data && |got| + size <= |disk.data[ino]| then
        Move(LoadRead(ino, got + disk.data[ino][|got|..|got| + size]), disk, counter)
      else Stuck
    case (LoadRead(ino, got), Go) =>
      if ino in disk.data && |got| == |disk.data[ino]| then Move(Loaded(codec.decode(got)), disk, counter) else Stuck
    case _ => Stuck
  }

  function ThreadMove(codec: Codec, pid: Pid, pc: Pc, disk: Disk, counter: nat, ch: Choice): Move {
    if pc.LoadOpen? || pc.LoadRead? then LoadMove(codec, pc, disk, counter, ch)
    else if pc.ClearRemove? && ch.Io? then
      Move(Returned, if ch.works then disk.(dir := disk.dir - {Target}) else disk, counter)
    else SaveMove(codec, pid, pc, disk, counter, ch)
  }

  function Next(codec: Codec, s: State, e: Event): Option<State> {
    match e
    case Start(pid) => if pid in s.counters then None else Some(s.(counters := s.counters[pid := 0]))
    case Crash(pid) =>
      Some(s.(counters := s.counters - {pid},
              threads := map t | t in s.threads && s.threads[t].pid != pid :: s.threads[t]))
    case Call(t, pid, op) =>
      if t in s.threads || pid !in s.counters then None
      else Some(s.(threads := s.threads[t := Thread(pid, Enter(op))],
                   saved := if op.Save? then s.saved + {op.rec} else s.saved))
    case Run(t, ch) =>
      if t !in s.threads || s.threads[t].pid !in s.counters then None
      else
        var pid := s.threads[t].pid;
        var m := ThreadMove(codec, pid, s.threads[t].pc, s.disk, s.counters[pid], ch);
        if m.Stuck? then None
        else
          Some(s.(disk := m.disk, counters := s.counters[pid := m.counter],
                  threads := s.threads[t := Thread(pid, m.pc)]))
  }

  function Exec(codec: Codec, s: State, es: seq<Event>): Option<State>
    decreases |es|
  {
    if es == [] then Some(s)
    else
      var s' := Next(codec, s, es[0]);
      if s'.None? then None else Exec(codec, s'.value, es[1..])
  }

  // A run state by state: event `es[k]` takes `ss[k]` to `ss[k + 1]`.
  ghost predicate Behaviour(codec: Codec, ss: seq<State>, es: seq<Event>) {
    |ss| == |es| + 1 && forall k {:trigger es[k]} :: 0 <= k < |es| ==> Next(codec, ss[k], es[k]) == Some(ss[k + 1])
  }

  // No call is under way, no process has left a file behind, and the cache file holds `initial`.
  predicate Initial(s: State, initial: Option<Bytes>) {
    && s.threads == map[] && s.counters == map[] && s.saved == {}
    && (match initial
        case None => s.disk == Disk(map[], map[], 0)
        case Some(bytes) => s.disk == Disk(map[Target := 0], map[0 := bytes], 1))
  }

  lemma {:induction false} FileNamesDiffer(target: string, a: Name, b: Name)
    ensures FileName(target, a) == FileName(target, b) <==> a == b
  {
    match (a, b)
    case (Temp(p, n), Temp(q, m)) => TempNamesDiffer(target, p, n, q, m);
    case (Temp(p, n), Target) => TempNameIsNotTheTarget(target, p, n);
    case (Target, Temp(p, n)) => TempNameIsNotTheTarget(target, p, n);
    case _ =>
  }
}
