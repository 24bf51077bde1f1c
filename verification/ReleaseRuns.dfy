/** Whole runs of the publication protocol. */
module ReleaseRuns {
  import opened CrashDirectory
  import opened ReleasePublication

  lemma SyncedShows<N, V>(d: Directory<N, V>, n: N, v: V)
    requires d.Valid()
    ensures d.Synced().Ever(n, v) ==> d.Ever(n, v)
    ensures d.Bound(n, v) ==> d.Synced().Bound(n, v)
    ensures n in d.Live() && d.Live()[n] == v <==> d.Synced().Bound(n, v)
  {
    assert d.Synced().trail[0] == d.Live();
  }

  /** While one builder holds the output path, no other builder holds it or has published there. */
  lemma Exclusive(s: State, p: Pid, q: Pid)
    requires Inv(s) && p in s.procs && q in s.procs && p != q && s.procs[p].Active()
    ensures !s.procs[q].Active() && !s.procs[q].Published?
  {
    assert ProcessOk(s, p) && ProcessOk(s, q);
    if s.procs[q].Published? { LiveIsEver(s.parent, OUTPUT); }
  }

  lemma OwnTarget(s: State, p: Pid)
    requires Inv(s) && p in s.procs && s.procs[p].Active() && Resolves(s)
    ensures Target(s) == s.procs[p].dir && s.dirs[Target(s)].maker == p
  {
    assert ProcessOk(s, p);
  }

  // ---- Changes inside one output directory.

  lemma MoveInDir(c: Claimed, name: Name)
    requires DirOk(c) && (name == Ready ==> Complete(c))
    ensures var d := Claimed(c.maker, c.dir.Changed(c.dir.Live()[name := c.maker]), c.wiped);
            && DirOk(d) && (Complete(c) ==> Complete(d)) && name in d.dir.Live()
            && (forall n :: n in c.dir.Live() ==> n in d.dir.Live())
  {
    var m := c.dir.Live()[name := c.maker];
    var d := Claimed(c.maker, c.dir.Changed(m), c.wiped);
    forall n, q ensures d.dir.Ever(n, q) ==> q == d.maker {
      ChangedShows(c.dir, m, n, q);
      LiveIsEver(c.dir, n);
    }
    forall n ensures c.dir.Bound(n, c.maker) ==> d.dir.Bound(n, c.maker) {
      ChangedShows(c.dir, m, n, c.maker);
      LiveIsEver(c.dir, n);
    }
    ChangedShows(c.dir, m, Ready, c.maker);
    LiveIsEver(c.dir, Ready);
  }

  lemma SyncDir(c: Claimed)
    requires DirOk(c)
    ensures var d := Claimed(c.maker, c.dir.Synced(), c.wiped);
            && DirOk(d) && d.dir.Live() == c.dir.Live()
            && (forall n, q :: c.dir.Bound(n, q) ==> d.dir.Bound(n, q))
            && (forall n :: n in c.dir.Live() ==> d.dir.Bound(n, c.maker))
  {
    var d := Claimed(c.maker, c.dir.Synced(), c.wiped);
    forall n, q ensures (d.dir.Ever(n, q) ==> c.dir.Ever(n, q)) && (c.dir.Bound(n, q) ==> d.dir.Bound(n, q)) {
      SyncedShows(c.dir, n, q);
    }
    forall n | n in c.dir.Live() ensures d.dir.Bound(n, c.maker) {
      LiveIsEver(c.dir, n);
      SyncedShows(c.dir, n, c.maker);
    }
  }

  lemma RemoveDir(c: Claimed, name: Name)
    requires DirOk(c)
    ensures DirOk(Claimed(c.maker, c.dir.Changed(c.dir.Live() - {name}), true))
  {
    var m := c.dir.Live() - {name};
    var d := Claimed(c.maker, c.dir.Changed(m), true);
    forall n, q ensures d.dir.Ever(n, q) ==> q == d.maker {
      ChangedShows(c.dir, m, n, q);
      LiveIsEver(c.dir, n);
    }
  }

  lemma LostDir(c: Claimed, left: map<Name, Pid>)
    requires DirOk(c) && Survivor(c.dir, left)
    ensures var d := Claimed(c.maker, Directory([left]), c.wiped);
            DirOk(d) && forall n, q :: c.dir.Bound(n, q) ==> d.dir.Bound(n, q)
  {
    var d := Claimed(c.maker, Directory([left]), c.wiped);
    forall n, q ensures (d.dir.Ever(n, q) ==> c.dir.Ever(n, q)) && (c.dir.Bound(n, q) ==> d.dir.Bound(n, q)) {
      SurvivorShows(c.dir, left, n);
    }
  }

  // ---- Each step keeps the invariant.

  /** An active builder changed its own output directory and moved on. */
  lemma OutputStep(s: State, p: Pid, c: Claimed, pc: Pc)
    requires Inv(s) && p in s.procs && s.procs[p].Active()
    requires DirOk(c) && c.maker == p
    requires var t := Move(s.(dirs := s.dirs[s.procs[p].dir := c]), p, pc); ProcessOk(t, p)
    ensures Inv(Move(s.(dirs := s.dirs[s.procs[p].dir := c]), p, pc))
  {
    var t := Move(s.(dirs := s.dirs[s.procs[p].dir := c]), p, pc);
    assert ProcessOk(s, p);
    forall q | q in t.procs ensures ProcessOk(t, q) {
      if q != p {
        Exclusive(s, p, q);
        assert ProcessOk(s, q);
      }
    }
  }

  lemma RenameKeeps(s: State, e: Event)
    requires Inv(s) && Enabled(s, e) && (e.Rename? || e.RenameReady?)
    ensures Inv(Next(s, e))
  {
    var p := e.p;
    OwnTarget(s, p);
    assert ProcessOk(s, p);
    var c := s.dirs[Target(s)];
    var name := if e.Rename? then CONTENT[s.procs[p].moved] else Ready;
    MoveInDir(c, name);
    var d := Claimed(p, c.dir.Changed(c.dir.Live()[name := p]), c.wiped);
    OutputStep(s, p, d, Next(s, e).procs[p]);
  }

  /** A builder's list has every file of a release but READY. */
  lemma AllMoved(n: Name)
    ensures n in CONTENT <==> n != Ready
  {
    assert CONTENT[0] == PolicyFile && CONTENT[1] == SloPolicy && CONTENT[2] == SloObservation;
    assert CONTENT[3] == EvidenceTree && CONTENT[4] == RecordFile;
  }

  lemma SyncOutputKeeps(s: State, e: Event)
    requires Inv(s) && Enabled(s, e) && (e.SyncContent? || e.SyncReady?)
    ensures Inv(Next(s, e))
  {
    var p := e.p;
    OwnTarget(s, p);
    assert ProcessOk(s, p);
    var c := s.dirs[Target(s)];
    SyncDir(c);
    var d := Claimed(p, c.dir.Synced(), c.wiped);
    forall n: Name | e.SyncContent? && n != Ready ensures d.dir.Bound(n, p) {
      AllMoved(n);
      var i :| 0 <= i < |CONTENT| && CONTENT[i] == n;
      assert CONTENT[i] in c.dir.Live();
    }
    OutputStep(s, p, d, Next(s, e).procs[p]);
  }

  lemma RemoveKeeps(s: State, e: Event)
    requires Inv(s) && Enabled(s, e) && e.Remove?
    ensures Inv(Next(s, e))
  {
    var p := e.p;
    OwnTarget(s, p);
    assert ProcessOk(s, p);
    var c := s.dirs[Target(s)];
    RemoveDir(c, e.name);
    var d := Claimed(p, c.dir.Changed(c.dir.Live() - {e.name}), true);
    OutputStep(s, p, d, s.procs[p]);
    assert s.procs[p := s.procs[p]] == s.procs;
  }

  lemma ClaimKeeps(s: State, e: Event)
    requires Inv(s) && Enabled(s, e) && e.Claim?
    ensures Inv(Next(s, e))
  {
    var p, t := e.p, Next(s, e);
    if OUTPUT in s.parent.Live() {
      QuietKeeps(s, p, Stopped);
    } else {
      var m := s.parent.Live()[OUTPUT := e.ino];
      forall ino ensures t.parent.Ever(OUTPUT, ino) ==> ino in t.dirs { ChangedShows(s.parent, m, OUTPUT, ino); }
      var empty := t.dirs[e.ino];
      forall n, q ensures !empty.dir.Ever(n, q) {}
      forall q | q in t.procs ensures ProcessOk(t, q) {
        if q != p {
          assert ProcessOk(s, q);
          LiveIsEver(s.parent, OUTPUT);
        }
      }
    }
  }

  /** Only a process's own stage changes. */
  lemma QuietKeeps(s: State, p: Pid, pc: Pc)
    requires Inv(s) && ProcessOk(Move(s, p, pc), p)
    ensures Inv(Move(s, p, pc))
  {
    var t := Move(s, p, pc);
    forall q | q in t.procs ensures ProcessOk(t, q) {
      if q != p { assert ProcessOk(s, q); }
    }
  }

  lemma ParentKeeps(s: State, e: Event)
    requires Inv(s) && Enabled(s, e) && (e.SyncParent? || e.WritebackParent? || e.RemoveTree?)
    ensures Inv(Next(s, e))
  {
    var t := Next(s, e);
    if e.RemoveTree? {
      var m := s.parent.Live() - {OUTPUT};
      forall ino ensures t.parent.Ever(OUTPUT, ino) ==> ino in t.dirs { ChangedShows(s.parent, m, OUTPUT, ino); }
      forall q | q in t.procs ensures ProcessOk(t, q) {
        if q != e.p {
          Exclusive(s, e.p, q);
          assert ProcessOk(s, q);
        }
      }
    } else {
      forall ino ensures t.parent.Ever(OUTPUT, ino) ==> ino in t.dirs { SyncedShows(s.parent, OUTPUT, ino); }
      forall q | q in t.procs ensures ProcessOk(t, q) {
        assert ProcessOk(s, q);
        if s.procs[q].Active() || s.procs[q].Published? { SyncedShows(s.parent, OUTPUT, s.procs[q].dir); }
      }
    }
  }

  lemma WritebackKeeps(s: State, e: Event)
    requires Inv(s) && Enabled(s, e) && e.Writeback?
    ensures Inv(Next(s, e))
  {
    var t := Next(s, e);
    SyncDir(s.dirs[e.ino]);
    forall q | q in t.procs ensures ProcessOk(t, q) { assert ProcessOk(s, q); }
  }

  lemma PowerLossKeeps(s: State, e: Event)
    requires Inv(s) && Enabled(s, e) && e.PowerLoss?
    ensures Inv(Next(s, e))
  {
    var t := Next(s, e);
    SurvivorShows(s.parent, e.left, OUTPUT);
    forall i | i in t.dirs
      ensures DirOk(t.dirs[i]) && forall n, q :: s.dirs[i].dir.Bound(n, q) ==> t.dirs[i].dir.Bound(n, q)
    {
      LostDir(s.dirs[i], e.contents[i].dir.trail[0]);
      assert t.dirs[i] == Claimed(s.dirs[i].maker, Directory([e.contents[i].dir.trail[0]]), s.dirs[i].wiped);
    }
    forall q | q in t.procs ensures ProcessOk(t, q) { assert ProcessOk(s, q); }
  }

  lemma StepKeeps(s: State, e: Event)
    requires Inv(s) && Enabled(s, e)
    ensures Inv(Next(s, e))
  {
    match e
    case Claim(_, _) => ClaimKeeps(s, e);
    case Rename(_) => RenameKeeps(s, e);
    case RenameReady(_) => RenameKeeps(s, e);
    case SyncContent(_) => SyncOutputKeeps(s, e);
    case SyncReady(_) => SyncOutputKeeps(s, e);
    case Remove(_, _) => RemoveKeeps(s, e);
    case SyncParent(_) => ParentKeeps(s, e);
    case WritebackParent => ParentKeeps(s, e);
    case RemoveTree(_) => ParentKeeps(s, e);
    case Writeback(_) => WritebackKeeps(s, e);
    case PowerLoss(_, _) => PowerLossKeeps(s, e);
    case Begin(p) => QuietKeeps(s, p, Preparing);
    case _ =>
      assert ProcessOk(s, e.p);
      QuietKeeps(s, e.p, Next(s, e).procs[e.p]);
  }

  // ---- Runs.

  ghost predicate Run(s: State, events: seq<Event>)
    decreases |events|
  {
    events == [] || (Enabled(s, events[0]) && Run(Next(s, events[0]), events[1..]))
  }

  ghost function End(s: State, events: seq<Event>): (t: State)
    requires Run(s, events)
    decreases |events|
  {
    if events == [] then s else End(Next(s, events[0]), events[1..])
  }

  ghost predicate Reachable(s: State) {
    exists events :: Run(Initial(), events) && End(Initial(), events) == s
  }

  lemma {:induction false} RunKeeps(s: State, events: seq<Event>)
    requires Inv(s) && Run(s, events)
    ensures Inv(End(s, events))
    decreases |events|
  {
    if events != [] {
      StepKeeps(s, events[0]);
      RunKeeps(Next(s, events[0]), events[1..]);
    }
  }

  lemma ReachableInv(s: State)
    requires Reachable(s)
    ensures Inv(s)
  {
    var events :| Run(Initial(), events) && End(Initial(), events) == s;
    RunKeeps(Initial(), events);
  }

  // ---- READY.

  /** The output directory shows READY. */
  ghost predicate ShowsReady(s: State) {
    Resolves(s) && Ready in s.dirs[Target(s)].dir.Live()
  }

  /** Every other bundle file is present, from the builder whose READY shows, and survives power loss. */
  ghost predicate ReadyIsTrue(s: State)
    requires ShowsReady(s)
  {
    var d := s.dirs[Target(s)].dir;
    forall n: Name :: n != Ready ==> d.Bound(n, d.Live()[Ready])
  }

  /** No builder fails between renaming READY and returning. */
  ghost predicate Careful(s: State, events: seq<Event>)
    requires Run(s, events)
    decreases |events|
  {
    events == [] ||
    (!(events[0].Fault? && s.procs[events[0].p].AfterReady()) && Careful(Next(s, events[0]), events[1..]))
  }

  /** READY was never in a directory that is still being filled or has been wiped. */
  ghost predicate NoEarlyReady(s: State) {
    && (forall i :: i in s.dirs && s.dirs[i].wiped ==> !s.dirs[i].dir.Ever(Ready, s.dirs[i].maker))
    && (forall p :: p in s.procs && (s.procs[p].Moving? || s.procs[p].Settled? || s.procs[p].Wiping?) ==>
          s.procs[p].dir in s.dirs && !s.dirs[s.procs[p].dir].dir.Ever(Ready, p))
  }

  lemma ReadyNotAdded(d: Directory<Name, Pid>, m: map<Name, Pid>, q: Pid)
    requires d.Valid() && (Ready in m ==> Ready in d.Live() && m[Ready] == d.Live()[Ready])
    ensures d.Changed(m).Ever(Ready, q) ==> d.Ever(Ready, q)
  {
    ChangedShows(d, m, Ready, q);
    LiveIsEver(d, Ready);
  }

  /** Only the rename of READY can make READY appear in a directory. */
  lemma ReadyOnlyRenamed(s: State, e: Event, ino: Ino, q: Pid)
    requires Inv(s) && Enabled(s, e) && !e.RenameReady? && ino in s.dirs
    ensures ino in Next(s, e).dirs && (Next(s, e).dirs[ino].dir.Ever(Ready, q) ==> s.dirs[ino].dir.Ever(Ready, q))
  {
    var d := s.dirs[ino].dir;
    assert DirOk(s.dirs[ino]);
    match e
    case Rename(p) => ReadyNotAdded(d, d.Live()[CONTENT[s.procs[p].moved] := p], q);
    case Remove(p, name) => ReadyNotAdded(d, d.Live() - {name}, q);
    case PowerLoss(left, contents) => SurvivorShows(d, contents[ino].dir.trail[0], Ready);
    case _ => SyncedShows(d, Ready, q);
  }

  lemma EarlyReadyStep(s: State, e: Event)
    requires Inv(s) && NoEarlyReady(s) && Enabled(s, e)
    requires !(e.Fault? && s.procs[e.p].AfterReady())
    ensures NoEarlyReady(Next(s, e))
  {
    if e.RenameReady? {
      ReadyRenameStep(s, e);
    } else {
      var t := Next(s, e);
      forall i, q | i in s.dirs ensures i in t.dirs && (t.dirs[i].dir.Ever(Ready, q) ==> s.dirs[i].dir.Ever(Ready, q)) {
        ReadyOnlyRenamed(s, e, i, q);
      }
      if e.Remove? {
        OwnTarget(s, e.p);
        assert ProcessOk(s, e.p);
      }
    }
  }

  lemma ReadyRenameStep(s: State, e: Event)
    requires Inv(s) && NoEarlyReady(s) && Enabled(s, e) && e.RenameReady?
    ensures NoEarlyReady(Next(s, e))
  {
    var t := Next(s, e);
    OwnTarget(s, e.p);
    assert ProcessOk(s, e.p);
    forall p | p in t.procs ensures !(t.procs[p].Moving? || t.procs[p].Settled? || t.procs[p].Wiping?) {
      if p != e.p { Exclusive(s, e.p, p); }
    }
  }

  lemma {:induction false} CarefulKeeps(s: State, events: seq<Event>)
    requires Inv(s) && NoEarlyReady(s) && Run(s, events) && Careful(s, events)
    ensures Inv(End(s, events)) && NoEarlyReady(End(s, events))
    decreases |events|
  {
    if events != [] {
      StepKeeps(s, events[0]);
      EarlyReadyStep(s, events[0]);
      CarefulKeeps(Next(s, events[0]), events[1..]);
    }
  }

  /**
   With builders racing and power lost anywhere: as long as no builder fails after renaming READY, a visible READY
   means that all other bundle files are durably present and come from the same builder.
   */
  lemma ReadyMeansComplete(events: seq<Event>)
    requires Run(Initial(), events) && Careful(Initial(), events)
    requires ShowsReady(End(Initial(), events))
    ensures ReadyIsTrue(End(Initial(), events))
  {
    CarefulKeeps(Initial(), events);
    var s := End(Initial(), events);
    var c := s.dirs[Target(s)];
    assert DirOk(c);
    LiveIsEver(c.dir, Ready);
  }

  /** And only so long: a failure after READY lets the cleanup remove a file while READY still shows. */
  lemma LateFaultBreaksReady(s: State, p: Pid) returns (events: seq<Event>)
    requires Reachable(s) && p in s.procs && s.procs[p].AfterReady()
    ensures Run(s, events) && ShowsReady(End(s, events)) && !ReadyIsTrue(End(s, events))
  {
    ReachableInv(s);
    assert ProcessOk(s, p) && DirOk(s.dirs[s.procs[p].dir]);
    events := [Fault(p), Remove(p, PolicyFile)];
    var t := Next(s, Fault(p));
    assert Resolves(t) && Target(t) == s.procs[p].dir;
    var u := Next(t, Remove(p, PolicyFile));
    assert events[1..] == [Remove(p, PolicyFile)] && events[1..][1..] == [];
    assert Run(u, []) && Run(t, events[1..]) && End(t, events[1..]) == u;
    var d := u.dirs[s.procs[p].dir].dir;
    assert PolicyFile !in d.Live() && Ready in d.Live();
    assert d.trail[|d.trail| - 1] == d.Live();
    assert !d.Bound(PolicyFile, d.Live()[Ready]);
  }

  /** A builder changes only directories it claimed itself: whoever loses the claim leaves the winner's files alone. */
  lemma LoserIsHarmless(s: State, e: Event, ino: Ino)
    requires Reachable(s) && Enabled(s, e) && !e.Writeback? && !e.WritebackParent? && !e.PowerLoss?
    requires ino in s.dirs && s.dirs[ino].maker != e.p
    ensures ino in Next(s, e).dirs && Next(s, e).dirs[ino] == s.dirs[ino]
    ensures s.parent.Valid() && OUTPUT in s.parent.Live() && s.parent.Live()[OUTPUT] == ino ==>
            Next(s, e).parent.Valid() && OUTPUT in Next(s, e).parent.Live() && Next(s, e).parent.Live()[OUTPUT] == ino
  {
    ReachableInv(s);
    if e.p in s.procs { assert ProcessOk(s, e.p); }
  }

  /** A returned bundle is there for good, whatever other builders do and whenever power is lost. */
  lemma {:induction false} PublishedForever(s: State, events: seq<Event>, p: Pid, ino: Ino)
    requires Reachable(s) && Stage(s, p, Published(ino)) && Run(s, events)
    ensures Stage(End(s, events), p, Published(ino)) && Safe(End(s, events), p, ino)
  {
    ReachableInv(s);
    PublishedStays(s, events, p);
    RunKeeps(s, events);
    assert ProcessOk(End(s, events), p);
  }

  lemma {:induction false} PublishedStays(s: State, events: seq<Event>, p: Pid)
    requires Run(s, events) && p in s.procs && s.procs[p].Published?
    ensures p in End(s, events).procs && End(s, events).procs[p] == s.procs[p]
    decreases |events|
  {
    if events != [] { PublishedStays(Next(s, events[0]), events[1..], p); }
  }
}
