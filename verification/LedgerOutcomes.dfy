/**
 How a process of the claim protocol ends: what it returns when it runs alone, exactly when it returns that the attempt
 is already consumed, and what it leaves in the directory.
 */
module LedgerOutcomes {
  import opened Basics
  import opened CrashDirectory
  import opened LedgerProtocol
  import opened LedgerSafety
  import opened LedgerRuns

  // ---- A process that runs alone and meets no fault.

  lemma Two(s: State, e: Event, f: Event)
    requires Enabled(s, e) && Enabled(Next(s, e), f)
    ensures Run(s, [e, f]) && End(s, [e, f]) == Next(Next(s, e), f)
  {
    RunCons(Next(s, e), f, []);
    RunCons(s, e, [f]);
    assert [e] + [f] == [e, f] && [f] + [] == [f];
  }

  /** The state after the temporary file is created. */
  function Opened(s: State, p: Pid, temp: Name, ino: Ino, file: File, pc: Pc): State
    requires s.dir.trail != [] && p in s.procs
  {
    Move(Bind(Store(s, ino, file), s.dir.Live()[temp := ino]), p, pc)
  }

  lemma OpenedAgain(s: State, p: Pid, temp: Name, ino: Ino, f: File, g: File, pc: Pc, next: Pc)
    requires s.dir.Valid() && p in s.procs
    ensures Move(Store(Opened(s, p, temp, ino, f, pc), ino, g), p, next) == Opened(s, p, temp, ino, g, next)
  {
    assert s.files[ino := f][ino := g] == s.files[ino := g];
    assert Opened(s, p, temp, ino, f, pc).procs[p := s.procs[p].(pc := next)] == s.procs[p := s.procs[p].(pc := next)];
  }

  /** Create, write, lock and fsync: the temporary holds the complete record. */
  lemma WriteAlone(s: State, p: Pid, token: nat, ino: Ino) returns (events: seq<Event>)
    requires s.dir.Valid() && p in s.procs && s.procs[p].pc == Cleared
    requires Temp(token) !in s.dir.Live() && ino !in s.files
    ensures Run(s, events)
    ensures End(s, events) == Opened(s, p, Temp(token), ino, File(p, s.procs[p].payload, RECORD_MODE, true),
                                     Flushed(Temp(token), ino))
  {
    var temp, payload := Temp(token), s.procs[p].payload;
    var blank, full := File(p, [], CREATE_MODE, false), File(p, payload, CREATE_MODE, false);
    var locked, kept := File(p, payload, RECORD_MODE, false), File(p, payload, RECORD_MODE, true);
    OpenedAgain(s, p, temp, ino, blank, full, Writing(temp, ino), Written(temp, ino));
    OpenedAgain(s, p, temp, ino, full, locked, Written(temp, ino), Locked(temp, ino));
    OpenedAgain(s, p, temp, ino, locked, kept, Locked(temp, ino), Flushed(temp, ino));
    var t := Opened(s, p, temp, ino, full, Written(temp, ino));
    Two(s, Create(p, token, ino), FinishWrite(p));
    Two(t, Chmod(p), SyncFile(p));
    RunAppend(s, [Create(p, token, ino), FinishWrite(p)], [Chmod(p), SyncFile(p)]);
    events := [Create(p, token, ino), FinishWrite(p)] + [Chmod(p), SyncFile(p)];
  }

  lemma EnterAlone(s: State, key: Key, payload: Bytes) returns (events: seq<Event>, p: Pid)
    requires Inv(s)
    ensures p !in s.procs && Run(s, events)
    ensures End(s, events) == s.(procs := s.procs[p := Process(key, payload, Cleared)])
  {
    p := FreshNat(s.procs.Keys);
    var begin := Begin(p, key, payload);
    var t := Next(s, begin);
    BeginKeeps(s, begin);
    var scan := ScanAlone(t, p);
    RunCons(s, begin, scan);
    events := [begin] + scan;
    assert Move(t, p, Cleared).procs == s.procs[p := Process(key, payload, Cleared)];
  }

  /** Scanning and writing, by a new process that runs alone: the state in which it calls link. */
  function BeforeLink(s: State, p: Pid, key: Key, payload: Bytes, token: nat, ino: Ino): State
    requires s.dir.trail != []
  {
    State(s.dir.Changed(s.dir.Live()[Temp(token) := ino]),
          s.files[ino := File(p, payload, RECORD_MODE, true)],
          s.procs[p := Process(key, payload, Flushed(Temp(token), ino))])
  }

  lemma ReachLink(s: State, key: Key, payload: Bytes) returns (events: seq<Event>, p: Pid, token: nat, ino: Ino)
    requires Inv(s)
    ensures p !in s.procs && Temp(token) !in s.dir.Live() && ino !in s.files
    ensures Run(s, events) && End(s, events) == BeforeLink(s, p, key, payload, token, ino)
  {
    var first, q := EnterAlone(s, key, payload);
    p := q;
    token, ino := FreshFor(s);
    var t := End(s, first);
    var second := WriteAlone(t, p, token, ino);
    RunAppend(s, first, second);
    events := first + second;
    assert End(t, second).procs == BeforeLink(s, p, key, payload, token, ino).procs;
  }

  /** The state a new process leaves behind: the directory as given and durable, and its file. */
  ghost predicate Left(s: State, t: State, p: Pid, key: Key, payload: Bytes, ino: Ino, names: map<Name, Ino>,
                       outcome: Outcome)
  {
    && p !in s.procs && ino !in s.files
    && t.dir == Directory([names])
    && t.files == s.files[ino := File(p, payload, RECORD_MODE, true)]
    && t.procs == s.procs[p := Process(key, payload, Done(outcome))]
  }

  /** A new process at some stage, with its file written and these names in the directory. */
  function Midway(s: State, p: Pid, key: Key, payload: Bytes, ino: Ino, dir: Directory<Name, Ino>, pc: Pc): State {
    State(dir, s.files[ino := File(p, payload, RECORD_MODE, true)], s.procs[p := Process(key, payload, pc)])
  }

  lemma MidwayMoves(s: State, p: Pid, key: Key, payload: Bytes, ino: Ino, dir: Directory<Name, Ino>, pc: Pc,
                    dir': Directory<Name, Ino>, next: Pc)
    ensures Move(Midway(s, p, key, payload, ino, dir, pc).(dir := dir'), p, next)
         == Midway(s, p, key, payload, ino, dir', next)
  {
    assert s.procs[p := Process(key, payload, pc)][p := Process(key, payload, next)]
        == s.procs[p := Process(key, payload, next)];
  }

  lemma LinkSteps(s: State, p: Pid, key: Key, payload: Bytes, token: nat, ino: Ino)
    requires s.dir.Valid() && Final(key) !in s.dir.Live()
    ensures var t := BeforeLink(s, p, key, payload, token, ino);
            var names := s.dir.Live()[Temp(token) := ino][Final(key) := ino];
            && Run(t, [Link(p), SyncDir(p)])
            && End(t, [Link(p), SyncDir(p)])
               == Midway(s, p, key, payload, ino, Directory([names]), Persisted(Temp(token), ino))
  {
    var t := BeforeLink(s, p, key, payload, token, ino);
    var dir := t.dir.Changed(t.dir.Live()[Final(key) := ino]);
    MidwayMoves(s, p, key, payload, ino, t.dir, Flushed(Temp(token), ino), dir, Linked(Temp(token), ino));
    MidwayMoves(s, p, key, payload, ino, dir, Linked(Temp(token), ino), dir.Synced(), Persisted(Temp(token), ino));
    Two(t, Link(p), SyncDir(p));
  }

  lemma UnlinkSteps(s: State, p: Pid, key: Key, payload: Bytes, temp: Name, ino: Ino, names: map<Name, Ino>)
    requires temp in names
    ensures var t := Midway(s, p, key, payload, ino, Directory([names]), Persisted(temp, ino));
            && Run(t, [Unlink(p), SyncLast(p)])
            && End(t, [Unlink(p), SyncLast(p)])
               == Midway(s, p, key, payload, ino, Directory([names - {temp}]), Done(Won(ino)))
  {
    var start := Directory([names]);
    var t, dir := Midway(s, p, key, payload, ino, start, Persisted(temp, ino)), start.Changed(names - {temp});
    MidwayMoves(s, p, key, payload, ino, start, Persisted(temp, ino), dir, Cleaned(ino));
    MidwayMoves(s, p, key, payload, ino, dir, Cleaned(ino), dir.Synced(), Done(Won(ino)));
    Two(t, Unlink(p), SyncLast(p));
  }

  /** Publishing the written file under a free final name. */
  lemma LinkAlone(s: State, p: Pid, key: Key, payload: Bytes, token: nat, ino: Ino)
    requires s.dir.Valid() && p !in s.procs && ino !in s.files && Temp(token) !in s.dir.Live()
    requires Final(key) !in s.dir.Live()
    ensures var t := BeforeLink(s, p, key, payload, token, ino);
            var events := [Link(p), SyncDir(p)] + [Unlink(p), SyncLast(p)];
            && Run(t, events)
            && Left(s, End(t, events), p, key, payload, ino, s.dir.Live()[Final(key) := ino], Won(ino))
  {
    var names := s.dir.Live()[Temp(token) := ino][Final(key) := ino];
    LinkSteps(s, p, key, payload, token, ino);
    UnlinkSteps(s, p, key, payload, Temp(token), ino, names);
    RunAppend(BeforeLink(s, p, key, payload, token, ino), [Link(p), SyncDir(p)], [Unlink(p), SyncLast(p)]);
    assert names - {Temp(token)} == s.dir.Live()[Final(key) := ino];
  }

  /** The same when the final name is taken. */
  lemma RefusedAlone(s: State, p: Pid, key: Key, payload: Bytes, token: nat, ino: Ino)
    requires s.dir.Valid() && p !in s.procs && ino !in s.files && Temp(token) !in s.dir.Live()
    requires Final(key) in s.dir.Live()
    ensures var t := BeforeLink(s, p, key, payload, token, ino);
            var events := [Link(p)] + [Drop(p), SyncDrop(p)];
            Run(t, events) && Left(s, End(t, events), p, key, payload, ino, s.dir.Live(), AlreadyConsumed)
  {
    var t, temp := BeforeLink(s, p, key, payload, token, ino), Temp(token);
    var refused := Abandoning(temp, ino, AlreadyConsumed);
    MidwayMoves(s, p, key, payload, ino, t.dir, Flushed(temp, ino), t.dir, refused);
    assert Next(t, Link(p)) == Midway(s, p, key, payload, ino, t.dir, refused);
    DropSteps(s, p, key, payload, temp, ino, t.dir);
    RunCons(t, Link(p), [Drop(p), SyncDrop(p)]);
    assert s.dir.Live()[temp := ino] - {temp} == s.dir.Live();
  }

  lemma DropSteps(s: State, p: Pid, key: Key, payload: Bytes, temp: Name, ino: Ino, start: Directory<Name, Ino>)
    requires start.Valid()
    ensures var t := Midway(s, p, key, payload, ino, start, Abandoning(temp, ino, AlreadyConsumed));
            && Run(t, [Drop(p), SyncDrop(p)])
            && End(t, [Drop(p), SyncDrop(p)])
               == Midway(s, p, key, payload, ino, Directory([start.Live() - {temp}]), Done(AlreadyConsumed))
  {
    var t := Midway(s, p, key, payload, ino, start, Abandoning(temp, ino, AlreadyConsumed));
    var dir := start.Changed(start.Live() - {temp});
    MidwayMoves(s, p, key, payload, ino, start, t.procs[p].pc, dir, Leaving(AlreadyConsumed));
    MidwayMoves(s, p, key, payload, ino, dir, Leaving(AlreadyConsumed), dir.Synced(), Done(AlreadyConsumed));
    Two(t, Drop(p), SyncDrop(p));
  }

  /** If no final name shows, a new process running alone consumes the attempt and leaves nothing but its claim. */
  lemma UnclaimedIsConsumable(s: State, key: Key, payload: Bytes) returns (events: seq<Event>, p: Pid, ino: Ino)
    requires Reachable(s) && s.dir.Valid() && Final(key) !in s.dir.Live()
    ensures Run(s, events)
    ensures Left(s, End(s, events), p, key, payload, ino, s.dir.Live()[Final(key) := ino], Won(ino))
  {
    ReachableInv(s);
    var first, q, token, i := ReachLink(s, key, payload);
    p, ino := q, i;
    LinkAlone(s, p, key, payload, token, ino);
    events := first + ([Link(p), SyncDir(p)] + [Unlink(p), SyncLast(p)]);
    RunAppend(s, first, [Link(p), SyncDir(p)] + [Unlink(p), SyncLast(p)]);
  }

  /** If a final name shows, a new process running alone is told so and leaves the directory as it was. */
  lemma ClaimedIsRefused(s: State, key: Key, payload: Bytes) returns (events: seq<Event>, p: Pid, ino: Ino)
    requires Reachable(s) && s.dir.Valid() && Final(key) in s.dir.Live()
    ensures Run(s, events)
    ensures Left(s, End(s, events), p, key, payload, ino, s.dir.Live(), AlreadyConsumed)
  {
    ReachableInv(s);
    var first, q, token, i := ReachLink(s, key, payload);
    p, ino := q, i;
    RefusedAlone(s, p, key, payload, token, ino);
    events := first + ([Link(p)] + [Drop(p), SyncDrop(p)]);
    RunAppend(s, first, [Link(p)] + [Drop(p), SyncDrop(p)]);
  }

  // ---- A process that meets a fault.

  lemma Three(s: State, e: Event, f: Event, g: Event)
    requires Enabled(s, e) && Enabled(Next(s, e), f) && Enabled(Next(Next(s, e), f), g)
    ensures Run(s, [e, f, g]) && End(s, [e, f, g]) == Next(Next(Next(s, e), f), g)
  {
    Two(Next(s, e), f, g);
    RunCons(s, e, [f, g]);
    assert [e] + [f, g] == [e, f, g];
  }

  /** The fault and the removal of the temporary. */
  lemma FaultDrops(s: State, p: Pid)
    requires s.dir.Valid() && p in s.procs && s.procs[p].pc.Holding()
    ensures Enabled(s, Fault(p)) && Enabled(Next(s, Fault(p)), Drop(p))
    ensures var t := Next(Next(s, Fault(p)), Drop(p));
            var pc := s.procs[p].pc;
            && t.dir == s.dir.Changed(s.dir.Live() - {pc.temp}) && t.files == s.files
            && t.procs == s.procs[p := s.procs[p].(pc := if pc.InFile() || pc.Discarding? then Done(Failed)
                                                         else Leaving(Failed))]
  {
  }

  /** While it writes the file, a process that meets a fault removes its temporary and returns a failure. */
  lemma FaultInFile(s: State, p: Pid)
    requires s.dir.Valid() && p in s.procs && (s.procs[p].pc.InFile() || s.procs[p].pc.Discarding?)
    ensures Run(s, [Fault(p), Drop(p)])
    ensures var t := End(s, [Fault(p), Drop(p)]);
            && t.dir == s.dir.Changed(s.dir.Live() - {s.procs[p].pc.temp}) && t.files == s.files
            && t.procs == s.procs[p := s.procs[p].(pc := Done(Failed))]
  {
    FaultDrops(s, p);
    Two(s, Fault(p), Drop(p));
  }

  /** Once it is written, the removal is made durable, too. */
  lemma FaultInPublishing(s: State, p: Pid)
    requires s.dir.Valid() && p in s.procs && s.procs[p].pc.Holding()
    requires !s.procs[p].pc.InFile() && !s.procs[p].pc.Discarding?
    ensures Run(s, [Fault(p), Drop(p), SyncDrop(p)])
    ensures var t := End(s, [Fault(p), Drop(p), SyncDrop(p)]);
            && t.dir == Directory([s.dir.Live() - {s.procs[p].pc.temp}]) && t.files == s.files
            && t.procs == s.procs[p := s.procs[p].(pc := Done(Failed))]
  {
    FaultDrops(s, p);
    Three(s, Fault(p), Drop(p), SyncDrop(p));
  }

  // ---- Exactly when a process returns that the attempt is already consumed.

  /** This process's link finds its final name taken. */
  ghost predicate LinkRefused(s: State, e: Event, p: Pid) {
    e == Link(p) && Enabled(s, e) && Final(s.procs[p].key) in s.dir.Live()
  }

  /** An event that makes a process fail or ends it. */
  predicate Upsets(e: Event, p: Pid) {
    e == Fault(p) || e == Abort(p) || e.PowerLoss?
  }

  predicate Turned(s: State, p: Pid) {
    p in s.procs && s.procs[p].pc.Abandoning? && s.procs[p].pc.reason == AlreadyConsumed
  }

  predicate Parting(s: State, p: Pid) {
    p in s.procs && s.procs[p].pc == Leaving(AlreadyConsumed)
  }

  predicate Told(s: State, p: Pid) {
    p in s.procs && s.procs[p].pc == Done(AlreadyConsumed)
  }

  /** Whose event it is; write-back and power loss are nobody's. */
  predicate By(e: Event, p: Pid) {
    !e.Writeback? && !e.PowerLoss? && e.p == p
  }

  lemma OthersPass(s: State, e: Event, p: Pid)
    requires Enabled(s, e) && !By(e, p) && !e.PowerLoss?
    ensures p in Next(s, e).procs <==> p in s.procs
    ensures p in s.procs ==> Next(s, e).procs[p] == s.procs[p]
  {
  }

  lemma TurnedStep(s: State, e: Event, p: Pid)
    requires Enabled(s, e)
    ensures Turned(Next(s, e), p) <==> LinkRefused(s, e, p) || (Turned(s, p) && !Upsets(e, p) && e != Drop(p))
  {
    if !By(e, p) && !e.PowerLoss? { OthersPass(s, e, p); }
  }

  lemma PartingStep(s: State, e: Event, p: Pid)
    requires Enabled(s, e)
    ensures Parting(Next(s, e), p) <==>
            (Turned(s, p) && e == Drop(p)) || (Parting(s, p) && !Upsets(e, p) && e != SyncDrop(p))
  {
    if !By(e, p) && !e.PowerLoss? { OthersPass(s, e, p); }
  }

  lemma ToldStep(s: State, e: Event, p: Pid)
    requires Enabled(s, e)
    ensures Told(Next(s, e), p) <==> Told(s, p) || (Parting(s, p) && e == SyncDrop(p))
  {
    if !By(e, p) && !e.PowerLoss? { OthersPass(s, e, p); }
  }

  lemma {:induction false} RunLast(s: State, events: seq<Event>, n: nat)
    requires Run(s, events) && n < |events|
    ensures Run(s, events[..n]) && Enabled(End(s, events[..n]), events[n])
    ensures Run(s, events[..n + 1]) && End(s, events[..n + 1]) == Next(End(s, events[..n]), events[n])
    decreases n
  {
    if n == 0 {
      assert events[..1][1..] == [];
    } else {
      RunLast(Next(s, events[0]), events[1..], n - 1);
      assert events[..n][1..] == events[1..][..n - 1] && events[..n + 1][1..] == events[1..][..n];
    }
  }

  /** A history in which something is turned, then parting, then told, step by step. */
  datatype History = History(refused: nat -> bool, upset: nat -> bool, drop: nat -> bool, sync: nat -> bool,
                             turned: nat -> bool, parting: nat -> bool, told: nat -> bool)

  ghost predicate Steps(h: History, k: nat) {
    && (h.turned(k + 1) <==> h.refused(k) || (h.turned(k) && !h.upset(k) && !h.drop(k)))
    && (h.parting(k + 1) <==> (h.turned(k) && h.drop(k)) || (h.parting(k) && !h.upset(k) && !h.sync(k)))
    && (h.told(k + 1) <==> h.told(k) || (h.parting(k) && h.sync(k)))
    && (h.sync(k) ==> !h.turned(k) && !h.told(k)) && !(h.drop(k) && h.upset(k))
  }

  ghost predicate Stepwise(h: History, n: nat) {
    !h.turned(0) && !h.parting(0) && !h.told(0) && forall k :: 0 <= k < n ==> Steps(h, k)
  }

  predicate Calm(upset: nat -> bool, i: nat, k: nat) {
    forall j :: i < j < k ==> !upset(j)
  }

  predicate Parted(h: History, i: nat, j: nat, k: nat) {
    i < j < k && h.refused(i) && h.drop(j) && Calm(h.upset, i, k)
  }

  lemma {:induction false} TurnedSince(h: History, n: nat) returns (i: nat)
    requires Stepwise(h, n) && h.turned(n)
    ensures i < n && h.refused(i) && Calm(h.upset, i, n)
  {
    assert Steps(h, n - 1);
    if h.refused(n - 1) { return n - 1; }
    i := TurnedSince(h, n - 1);
  }

  lemma {:induction false} PartingSince(h: History, n: nat) returns (i: nat, j: nat)
    requires Stepwise(h, n) && h.parting(n)
    ensures Parted(h, i, j, n)
  {
    assert Steps(h, n - 1);
    if h.turned(n - 1) && h.drop(n - 1) {
      i := TurnedSince(h, n - 1);
      j := n - 1;
    } else {
      i, j := PartingSince(h, n - 1);
    }
  }

  lemma {:induction false} ToldSince(h: History, n: nat) returns (i: nat, j: nat, k: nat)
    requires Stepwise(h, n) && h.told(n)
    ensures k < n && Parted(h, i, j, k) && h.sync(k)
  {
    assert Steps(h, n - 1);
    if h.told(n - 1) {
      i, j, k := ToldSince(h, n - 1);
    } else {
      i, j := PartingSince(h, n - 1);
      k := n - 1;
    }
  }

  /** From the refusal on, while nothing fails, it is on its way to being told. */
  lemma {:induction false} OnTheWay(h: History, i: nat, n: nat)
    requires Stepwise(h, n) && i < n && h.refused(i) && Calm(h.upset, i, n)
    ensures h.turned(n) || h.parting(n) || h.told(n)
    decreases n
  {
    assert Steps(h, n - 1);
    if i < n - 1 { OnTheWay(h, i, n - 1); }
  }

  lemma {:induction false} ToldStays(h: History, k: nat, n: nat)
    requires Stepwise(h, n) && k <= n && h.told(k)
    ensures h.told(n)
    decreases n
  {
    if k < n {
      ToldStays(h, k, n - 1);
      assert Steps(h, n - 1);
    }
  }

  lemma PartedIsTold(h: History, i: nat, j: nat, k: nat, n: nat)
    requires Stepwise(h, n) && k < n && Parted(h, i, j, k) && h.sync(k)
    ensures h.told(n)
  {
    OnTheWay(h, i, k);
    assert Steps(h, k);
    ToldStays(h, k + 1, n);
  }

  // ---- The history of one process in a run.

  ghost predicate RefusedAt(s: State, events: seq<Event>, p: Pid, i: nat) {
    i < |events| && Run(s, events[..i]) && LinkRefused(End(s, events[..i]), events[i], p)
  }

  ghost predicate TurnedAt(s: State, events: seq<Event>, p: Pid, k: nat) {
    k <= |events| && Run(s, events[..k]) && Turned(End(s, events[..k]), p)
  }

  ghost predicate PartingAt(s: State, events: seq<Event>, p: Pid, k: nat) {
    k <= |events| && Run(s, events[..k]) && Parting(End(s, events[..k]), p)
  }

  ghost predicate ToldAt(s: State, events: seq<Event>, p: Pid, k: nat) {
    k <= |events| && Run(s, events[..k]) && Told(End(s, events[..k]), p)
  }

  predicate EventAt(events: seq<Event>, k: nat, e: Event) {
    k < |events| && events[k] == e
  }

  predicate UpsetAt(events: seq<Event>, p: Pid, k: nat) {
    k < |events| && Upsets(events[k], p)
  }

  ghost function HistoryOf(s: State, events: seq<Event>, p: Pid): History {
    History((k: nat) => RefusedAt(s, events, p, k), (k: nat) => UpsetAt(events, p, k),
            (k: nat) => EventAt(events, k, Drop(p)), (k: nat) => EventAt(events, k, SyncDrop(p)),
            (k: nat) => TurnedAt(s, events, p, k), (k: nat) => PartingAt(s, events, p, k),
            (k: nat) => ToldAt(s, events, p, k))
  }

  lemma EventsStep(s: State, events: seq<Event>, p: Pid, k: nat)
    requires Run(s, events) && k < |events|
    ensures TurnedAt(s, events, p, k + 1) <==>
            RefusedAt(s, events, p, k) || (TurnedAt(s, events, p, k) && !UpsetAt(events, p, k)
                                           && !EventAt(events, k, Drop(p)))
    ensures PartingAt(s, events, p, k + 1) <==>
            (TurnedAt(s, events, p, k) && EventAt(events, k, Drop(p)))
            || (PartingAt(s, events, p, k) && !UpsetAt(events, p, k) && !EventAt(events, k, SyncDrop(p)))
    ensures ToldAt(s, events, p, k + 1) <==>
            ToldAt(s, events, p, k) || (PartingAt(s, events, p, k) && EventAt(events, k, SyncDrop(p)))
    ensures EventAt(events, k, SyncDrop(p)) ==> !TurnedAt(s, events, p, k) && !ToldAt(s, events, p, k)
    ensures !(EventAt(events, k, Drop(p)) && UpsetAt(events, p, k))
  {
    RunLast(s, events, k);
    var t := End(s, events[..k]);
    TurnedStep(t, events[k], p);
    PartingStep(t, events[k], p);
    ToldStep(t, events[k], p);
  }

  lemma HistorySteps(s: State, events: seq<Event>, p: Pid)
    requires Run(s, events) && p !in s.procs
    ensures Stepwise(HistoryOf(s, events, p), |events|)
  {
    assert events[..0] == [];
    forall k | 0 <= k < |events| ensures Steps(HistoryOf(s, events, p), k) { EventsStep(s, events, p, k); }
  }

  /** Refused at `i`, its temporary dropped at `j` and that made durable at `k`, with no failure between. */
  ghost predicate TurnedAway(s: State, events: seq<Event>, p: Pid, i: nat, j: nat, k: nat) {
    && i < j < k < |events| && RefusedAt(s, events, p, i) && events[j] == Drop(p) && events[k] == SyncDrop(p)
    && forall m :: i < m < k ==> !Upsets(events[m], p)
  }

  lemma TurnedAwayBefore(s: State, events: seq<Event>, p: Pid) returns (i: nat, j: nat, k: nat)
    requires Stepwise(HistoryOf(s, events, p), |events|) && ToldAt(s, events, p, |events|)
    ensures TurnedAway(s, events, p, i, j, k)
  {
    i, j, k := ToldSince(HistoryOf(s, events, p), |events|);
    forall m | i < m < k ensures !Upsets(events[m], p) { assert !HistoryOf(s, events, p).upset(m); }
  }

  lemma TurnedAwayIsTold(s: State, events: seq<Event>, p: Pid, i: nat, j: nat, k: nat)
    requires Stepwise(HistoryOf(s, events, p), |events|) && TurnedAway(s, events, p, i, j, k)
    ensures ToldAt(s, events, p, |events|)
  {
    var h := HistoryOf(s, events, p);
    assert h.refused(i) && h.drop(j) && h.sync(k);
    PartedIsTold(h, i, j, k, |events|);
  }

  /**
   A process returns that the attempt is already consumed exactly when its link found the final name taken and it then
   removed its temporary durably, with no fault, abort or power loss on the way.
   */
  lemma ToldExactly(s: State, events: seq<Event>, p: Pid)
    requires Run(s, events) && p !in s.procs
    ensures Told(End(s, events), p) <==> exists i, j, k :: TurnedAway(s, events, p, i, j, k)
  {
    HistorySteps(s, events, p);
    ToldAtEnd(s, events, p);
    if Told(End(s, events), p) {
      var i, j, k := TurnedAwayBefore(s, events, p);
    }
    if i, j, k :| TurnedAway(s, events, p, i, j, k) { TurnedAwayIsTold(s, events, p, i, j, k); }
  }

  lemma ToldAtEnd(s: State, events: seq<Event>, p: Pid)
    requires Run(s, events)
    ensures ToldAt(s, events, p, |events|) <==> Told(End(s, events), p)
  {
    assert events[..|events|] == events;
  }
}
