/**
 The claim protocol of `tools/sacrificial_attempt_ledger.py`: any number of consumers publish records into one
 claims directory, in any interleaving, with system calls failing and power lost at any point.
 */
module LedgerProtocol {
  import opened Basics
  import opened CrashDirectory

  type Key = string
  type Pid = nat
  type Ino = nat

  const RECORD_MODE: nat := 0x100  // 0400
  const CREATE_MODE: nat := 0x180  // 0600

  /** `<sha256>.json` or `.claim-<token>.tmp`. */
  datatype Name = Final(key: Key) | Temp(token: nat)

  datatype File = File(maker: Pid, data: Bytes, mode: nat, synced: bool)

  datatype Outcome = Won(ino: Ino) | AlreadyConsumed | Rejected | Failed | Killed

  datatype Pc =
    | Listing(listed: set<Name>)
    | Checking(todo: set<Name>)
    | Cleared
    | Writing(temp: Name, ino: Ino)
    | Written(temp: Name, ino: Ino)
    | Locked(temp: Name, ino: Ino)
    | Flushed(temp: Name, ino: Ino)
    | Linked(temp: Name, ino: Ino)
    | Persisted(temp: Name, ino: Ino)
    | Cleaned(ino: Ino)
    | Discarding(temp: Name, ino: Ino)
    | Abandoning(temp: Name, ino: Ino, reason: Outcome)
    | Leaving(reason: Outcome)
    | Done(outcome: Outcome)
  {
    predicate Holding() {
      InFile() || Flushed? || Linked? || Persisted? || Discarding? || Abandoning?
    }

    /** While the temporary file is written, before there is anything to publish. */
    predicate InFile() {
      Writing? || Written? || Locked?
    }
  }

  datatype Process = Process(key: Key, payload: Bytes, pc: Pc)

  datatype State = State(dir: Directory<Name, Ino>, files: map<Ino, File>, procs: map<Pid, Process>)

  datatype Event =
    | Begin(p: Pid, key: Key, payload: Bytes)
    | List(p: Pid, name: Name)
    | EndList(p: Pid)
    | Check(p: Pid, name: Name)
    | EndCheck(p: Pid)
    | Create(p: Pid, token: nat, ino: Ino)
    | Write(p: Pid, size: nat)
    | FinishWrite(p: Pid)
    | Chmod(p: Pid)
    | SyncFile(p: Pid)
    | Link(p: Pid)
    | SyncDir(p: Pid)
    | Unlink(p: Pid)
    | SyncLast(p: Pid)
    | Fault(p: Pid)
    | Drop(p: Pid)
    | SyncDrop(p: Pid)
    | Abort(p: Pid)
    | Writeback
    | PowerLoss(left: map<Name, Ino>, contents: map<Ino, File>)

  function Initial(): (s: State) {
    State(Directory([map[]]), map[], map[])
  }

  /** A file that power loss may leave: fsynced files are kept, others keep only their mode's range. */
  ghost predicate FilesSurvive(before: map<Ino, File>, after: map<Ino, File>) {
    && after.Keys == before.Keys
    && forall i :: i in before ==>
         && after[i].maker == before[i].maker
         && (before[i].synced ==> after[i] == before[i])
         && after[i].mode in {CREATE_MODE, RECORD_MODE}
  }

  predicate At(s: State, p: Pid) {
    |s.dir.trail| > 0 && p in s.procs
  }

  function PcOf(s: State, p: Pid): Pc
    requires At(s, p)
  {
    s.procs[p].pc
  }

  /** The checks `_verify_root_state` makes of one directory entry. */
  predicate EntryAccepted(s: State, name: Name)
    requires |s.dir.trail| > 0
  {
    if name !in s.dir.Live() then name.Temp?
    else
      var ino := s.dir.Live()[name];
      ino in s.files &&
      if name.Final? then s.files[ino].mode == RECORD_MODE else s.files[ino].mode in {CREATE_MODE, RECORD_MODE}
  }

  ghost predicate Enabled(s: State, e: Event) {
    match e
    case Begin(p, key, payload) => p !in s.procs
    case List(p, name) => At(s, p) && PcOf(s, p).Listing? && name in s.dir.Live()
    case EndList(p) => At(s, p) && PcOf(s, p).Listing?
    case Check(p, name) => At(s, p) && PcOf(s, p).Checking? && name in PcOf(s, p).todo
    case EndCheck(p) => At(s, p) && PcOf(s, p).Checking? && PcOf(s, p).todo == {}
    case Create(p, token, ino) => At(s, p) && PcOf(s, p).Cleared? && ino !in s.files
    case Write(p, size) =>
      && At(s, p) && PcOf(s, p).Writing? && PcOf(s, p).ino in s.files
      && size <= |s.procs[p].payload|
    case FinishWrite(p) => At(s, p) && PcOf(s, p).Writing? && PcOf(s, p).ino in s.files
    case Chmod(p) => At(s, p) && PcOf(s, p).Written? && PcOf(s, p).ino in s.files
    case SyncFile(p) => At(s, p) && PcOf(s, p).Locked? && PcOf(s, p).ino in s.files
    case Link(p) => At(s, p) && PcOf(s, p).Flushed?
    case SyncDir(p) => At(s, p) && PcOf(s, p).Linked?
    case Unlink(p) => At(s, p) && PcOf(s, p).Persisted?
    case SyncLast(p) => At(s, p) && PcOf(s, p).Cleaned?
    case Fault(p) => At(s, p) && PcOf(s, p).Holding()
    case Drop(p) => At(s, p) && (PcOf(s, p).Discarding? || PcOf(s, p).Abandoning?)
    case SyncDrop(p) => At(s, p) && PcOf(s, p).Leaving?
    case Abort(p) => At(s, p) && !PcOf(s, p).Done?
    case Writeback => |s.dir.trail| > 0
    case PowerLoss(left, contents) => Survivor(s.dir, left) && FilesSurvive(s.files, contents)
  }

  function Move(s: State, p: Pid, pc: Pc): State
    requires p in s.procs
  {
    s.(procs := s.procs[p := s.procs[p].(pc := pc)])
  }

  function Store(s: State, ino: Ino, file: File): State {
    s.(files := s.files[ino := file])
  }

  function Bind(s: State, m: map<Name, Ino>): State {
    s.(dir := s.dir.Changed(m))
  }

  function Kill(procs: map<Pid, Process>): map<Pid, Process> {
    map p | p in procs :: if procs[p].pc.Done? then procs[p] else procs[p].(pc := Done(Killed))
  }

  ghost function Next(s: State, e: Event): (t: State)
    requires Enabled(s, e)
  {
    match e
    case Begin(p, key, payload) => s.(procs := s.procs[p := Process(key, payload, Listing({}))])
    case List(p, name) => Move(s, p, Listing(PcOf(s, p).listed + {name}))
    case EndList(p) => Move(s, p, Checking(PcOf(s, p).listed))
    case Check(p, name) =>
      if EntryAccepted(s, name) then Move(s, p, Checking(PcOf(s, p).todo - {name})) else Move(s, p, Done(Rejected))
    case EndCheck(p) => Move(s, p, Cleared)
    case Create(p, token, ino) =>
      if Temp(token) in s.dir.Live() then Move(s, p, Done(Failed))
      else Move(Bind(Store(s, ino, File(p, [], CREATE_MODE, false)), s.dir.Live()[Temp(token) := ino]),
                p, Writing(Temp(token), ino))
    case Write(p, size) =>
      Store(s, PcOf(s, p).ino, s.files[PcOf(s, p).ino].(data := s.procs[p].payload[..size]))
    case FinishWrite(p) =>
      Move(Store(s, PcOf(s, p).ino, s.files[PcOf(s, p).ino].(data := s.procs[p].payload)),
           p, Written(PcOf(s, p).temp, PcOf(s, p).ino))
    case Chmod(p) =>
      Move(Store(s, PcOf(s, p).ino, s.files[PcOf(s, p).ino].(mode := RECORD_MODE)),
           p, Locked(PcOf(s, p).temp, PcOf(s, p).ino))
    case SyncFile(p) =>
      Move(Store(s, PcOf(s, p).ino, s.files[PcOf(s, p).ino].(synced := true)),
           p, Flushed(PcOf(s, p).temp, PcOf(s, p).ino))
    case Link(p) =>
      var pc := PcOf(s, p);
      if Final(s.procs[p].key) in s.dir.Live() then Move(s, p, Abandoning(pc.temp, pc.ino, AlreadyConsumed))
      else Move(Bind(s, s.dir.Live()[Final(s.procs[p].key) := pc.ino]), p, Linked(pc.temp, pc.ino))
    case SyncDir(p) => Move(s.(dir := s.dir.Synced()), p, Persisted(PcOf(s, p).temp, PcOf(s, p).ino))
    case Unlink(p) =>
      if PcOf(s, p).temp in s.dir.Live()
      then Move(Bind(s, s.dir.Live() - {PcOf(s, p).temp}), p, Cleaned(PcOf(s, p).ino))
      else Move(s, p, Done(Won(PcOf(s, p).ino)))
    case SyncLast(p) => Move(s.(dir := s.dir.Synced()), p, Done(Won(PcOf(s, p).ino)))
    case Fault(p) =>
      var pc := PcOf(s, p);
      Move(s, p, if pc.InFile() || pc.Discarding? then Discarding(pc.temp, pc.ino)
                 else Abandoning(pc.temp, pc.ino, Failed))
    case Drop(p) =>
      var pc := PcOf(s, p);
      Move(Bind(s, s.dir.Live() - {pc.temp}), p, if pc.Discarding? then Done(Failed) else Leaving(pc.reason))
    case SyncDrop(p) => Move(s.(dir := s.dir.Synced()), p, Done(PcOf(s, p).reason))
    case Abort(p) => Move(s, p, Done(Failed))
    case Writeback => s.(dir := s.dir.Synced())
    case PowerLoss(left, contents) => State(Directory([left]), contents, Kill(s.procs))
  }
}
