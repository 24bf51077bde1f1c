/**
 The publication steps of `tools/product_release.py`: builders race for one output directory, move their fsynced
 files in, and rename READY last; any step may fail and power may be lost at any point.
 */
module ReleasePublication {
  import opened CrashDirectory

  type Pid = nat
  type Ino = nat

  datatype Name = PolicyFile | SloPolicy | SloObservation | EvidenceTree | RecordFile | Ready

  /** What a builder renames before READY, in this order. */
  const CONTENT: seq<Name> := [PolicyFile, SloPolicy, SloObservation, EvidenceTree, RecordFile]
  const OUTPUT: string := "output"

  /** A claimed output directory; every entry is tagged with the builder it came from. */
  datatype Claimed = Claimed(maker: Pid, dir: Directory<Name, Pid>, wiped: bool)

  datatype Pc =
    | Preparing
    | Moving(dir: Ino, moved: nat)
    | Settled(dir: Ino)
    | Announced(dir: Ino)
    | Sealed(dir: Ino)
    | Anchored(dir: Ino)
    | Wiping(dir: Ino)
    | Published(dir: Ino)
    | Stopped
  {
    predicate Active() {
      Moving? || Settled? || Announced? || Sealed? || Anchored? || Wiping?
    }

    /** Past the rename of READY and not yet returned. */
    predicate AfterReady() {
      Announced? || Sealed? || Anchored?
    }
  }

  datatype State = State(parent: Directory<string, Ino>, dirs: map<Ino, Claimed>, procs: map<Pid, Pc>)

  datatype Event =
    | Begin(p: Pid)
    | Claim(p: Pid, ino: Ino)
    | Rename(p: Pid)
    | SyncContent(p: Pid)
    | RenameReady(p: Pid)
    | SyncReady(p: Pid)
    | SyncParent(p: Pid)
    | Return(p: Pid)
    | Fault(p: Pid)
    | Remove(p: Pid, name: Name)
    | RemoveTree(p: Pid)
    | Abort(p: Pid)
    | Writeback(ino: Ino)
    | WritebackParent
    | PowerLoss(left: map<string, Ino>, contents: map<Ino, Claimed>)

  function Initial(): (s: State) {
    State(Directory([map[]]), map[], map[])
  }

  predicate Stage(s: State, p: Pid, pc: Pc) {
    p in s.procs && s.procs[p] == pc
  }

  /** The directory a path operation on the output reaches. */
  predicate Resolves(s: State) {
    |s.parent.trail| > 0 && OUTPUT in s.parent.Live() && s.parent.Live()[OUTPUT] in s.dirs &&
    |s.dirs[s.parent.Live()[OUTPUT]].dir.trail| > 0
  }

  function Target(s: State): (ino: Ino)
    requires Resolves(s)
    ensures ino in s.dirs && |s.dirs[ino].dir.trail| > 0
  {
    s.parent.Live()[OUTPUT]
  }

  ghost predicate ContentsSurvive(before: map<Ino, Claimed>, after: map<Ino, Claimed>) {
    && after.Keys == before.Keys
    && forall i :: i in before ==>
         && after[i].maker == before[i].maker && after[i].wiped == before[i].wiped
         && |after[i].dir.trail| == 1 && Survivor(before[i].dir, after[i].dir.trail[0])
  }

  ghost predicate Enabled(s: State, e: Event) {
    match e
    case Begin(p) => p !in s.procs
    case Claim(p, ino) => Stage(s, p, Preparing) && ino !in s.dirs && |s.parent.trail| > 0
    case Rename(p) => p in s.procs && s.procs[p].Moving? && s.procs[p].moved < |CONTENT| && Resolves(s)
    case SyncContent(p) => p in s.procs && s.procs[p].Moving? && s.procs[p].moved == |CONTENT| && Resolves(s)
    case RenameReady(p) => p in s.procs && s.procs[p].Settled? && Resolves(s)
    case SyncReady(p) => p in s.procs && s.procs[p].Announced? && Resolves(s)
    case SyncParent(p) => p in s.procs && s.procs[p].Sealed? && |s.parent.trail| > 0
    case Return(p) => p in s.procs && s.procs[p].Anchored?
    case Fault(p) => p in s.procs && (s.procs[p].Preparing? || (s.procs[p].Active() && !s.procs[p].Wiping?))
    case Remove(p, name) => p in s.procs && s.procs[p].Wiping? && Resolves(s)
    case RemoveTree(p) => p in s.procs && s.procs[p].Wiping? && Resolves(s) && s.dirs[Target(s)].dir.Live() == map[]
    case Abort(p) => p in s.procs && !s.procs[p].Published? && !s.procs[p].Stopped?
    case Writeback(ino) => ino in s.dirs && |s.dirs[ino].dir.trail| > 0
    case WritebackParent => |s.parent.trail| > 0
    case PowerLoss(left, contents) => Survivor(s.parent, left) && ContentsSurvive(s.dirs, contents)
  }

  function Move(s: State, p: Pid, pc: Pc): State {
    s.(procs := s.procs[p := pc])
  }

  function Put(s: State, ino: Ino, dir: Directory<Name, Pid>): State
    requires ino in s.dirs
  {
    s.(dirs := s.dirs[ino := s.dirs[ino].(dir := dir)])
  }

  /** Renames a prepared file of builder `p` into the output directory. */
  function MoveIn(s: State, p: Pid, name: Name): State
    requires Resolves(s)
  {
    var d := s.dirs[Target(s)].dir;
    Put(s, Target(s), d.Changed(d.Live()[name := p]))
  }

  function SyncOutput(s: State): State
    requires Resolves(s)
  {
    Put(s, Target(s), s.dirs[Target(s)].dir.Synced())
  }

  function Halt(procs: map<Pid, Pc>): map<Pid, Pc> {
    map p | p in procs :: if procs[p].Published? then procs[p] else Stopped
  }

  ghost function Next(s: State, e: Event): (t: State)
    requires Enabled(s, e)
  {
    match e
    case Begin(p) => Move(s, p, Preparing)
    case Claim(p, ino) =>
      if OUTPUT in s.parent.Live() then Move(s, p, Stopped)
      else Move(State(s.parent.Changed(s.parent.Live()[OUTPUT := ino]),
                      s.dirs[ino := Claimed(p, Directory([map[]]), false)], s.procs), p, Moving(ino, 0))
    case Rename(p) => Move(MoveIn(s, p, CONTENT[s.procs[p].moved]), p, Moving(s.procs[p].dir, s.procs[p].moved + 1))
    case SyncContent(p) => Move(SyncOutput(s), p, Settled(s.procs[p].dir))
    case RenameReady(p) => Move(MoveIn(s, p, Ready), p, Announced(s.procs[p].dir))
    case SyncReady(p) => Move(SyncOutput(s), p, Sealed(s.procs[p].dir))
    case SyncParent(p) => Move(s.(parent := s.parent.Synced()), p, Anchored(s.procs[p].dir))
    case Return(p) => Move(s, p, Published(s.procs[p].dir))
    case Fault(p) => Move(s, p, if s.procs[p].Preparing? then Stopped else Wiping(s.procs[p].dir))
    case Remove(p, name) =>
      var d := s.dirs[Target(s)];
      s.(dirs := s.dirs[Target(s) := Claimed(d.maker, d.dir.Changed(d.dir.Live() - {name}), true)])
    case RemoveTree(p) => Move(s.(parent := s.parent.Changed(s.parent.Live() - {OUTPUT})), p, Stopped)
    case Abort(p) => Move(s, p, Stopped)
    case Writeback(ino) => Put(s, ino, s.dirs[ino].dir.Synced())
    case WritebackParent => s.(parent := s.parent.Synced())
    case PowerLoss(left, contents) => State(Directory([left]), contents, Halt(s.procs))
  }

  // ---- The invariant.

  /** Every entry came from the directory's own builder, and READY was there only with durable content. */
  ghost predicate DirOk(c: Claimed) {
    && c.dir.Valid()
    && (forall n, q :: c.dir.Ever(n, q) ==> q == c.maker)
    && (!c.wiped && c.dir.Ever(Ready, c.maker) ==> Complete(c))
  }

  /** Every file of a release but READY is there, from the directory's builder, and survives power loss. */
  ghost predicate Complete(c: Claimed) {
    forall n: Name :: n != Ready ==> c.dir.Bound(n, c.maker)
  }

  ghost predicate Owns(s: State, p: Pid, ino: Ino) {
    s.parent.Valid() && OUTPUT in s.parent.Live() && s.parent.Live()[OUTPUT] == ino && ino in s.dirs &&
      s.dirs[ino].maker == p
  }

  ghost predicate MovedOk(c: Claimed, k: nat) {
    c.dir.Valid() && k <= |CONTENT| && forall i :: 0 <= i < k ==> CONTENT[i] in c.dir.Live()
  }

  ghost predicate ProcessOk(s: State, p: Pid)
    requires p in s.procs
  {
    var pc := s.procs[p];
    && (pc.Active() ==> Owns(s, p, pc.dir))
    && (pc.Active() && !pc.Wiping? ==> !s.dirs[pc.dir].wiped)
    && (pc.Moving? ==> MovedOk(s.dirs[pc.dir], pc.moved))
    && (pc.Settled? || pc.AfterReady() ==> Complete(s.dirs[pc.dir]))
    && (pc.AfterReady() ==> s.dirs[pc.dir].dir.Valid() && Ready in s.dirs[pc.dir].dir.Live())
    && (pc.Sealed? || pc.Anchored? ==> s.dirs[pc.dir].dir.Bound(Ready, p))
    && (pc.Anchored? ==> s.parent.Bound(OUTPUT, pc.dir))
    && (pc.Published? ==> Safe(s, p, pc.dir))
  }

  /** The published bundle: everything bound, from this builder. */
  ghost predicate Safe(s: State, p: Pid, ino: Ino) {
    && s.parent.Bound(OUTPUT, ino)
    && ino in s.dirs && s.dirs[ino].maker == p && !s.dirs[ino].wiped
    && Complete(s.dirs[ino]) && s.dirs[ino].dir.Bound(Ready, p)
  }

  ghost predicate Inv(s: State) {
    && s.parent.Valid()
    && (forall ino :: s.parent.Ever(OUTPUT, ino) ==> ino in s.dirs)
    && (forall i :: i in s.dirs ==> DirOk(s.dirs[i]))
    && (forall p :: p in s.procs ==> ProcessOk(s, p))
  }
}
