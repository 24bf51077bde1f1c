/** A builder that finds the output path free and runs alone publishes; and how READY can come to be wrong. */
module ReleaseLiveness {
  import opened Basics
  import opened CrashDirectory
  import opened ReleasePublication
  import opened ReleaseRuns

  lemma RunCons(s: State, e: Event, rest: seq<Event>)
    requires Enabled(s, e) && Run(Next(s, e), rest)
    ensures Run(s, [e] + rest) && End(s, [e] + rest) == End(Next(s, e), rest)
  {
    assert ([e] + rest)[1..] == rest;
  }

  lemma {:induction false} RunAppend(s: State, a: seq<Event>, b: seq<Event>)
    requires Run(s, a) && Run(End(s, a), b)
    ensures Run(s, a + b) && End(s, a + b) == End(End(s, a), b)
    decreases |a|
  {
    if a == [] {
      assert a + b == b;
    } else {
      RunAppend(Next(s, a[0]), a[1..], b);
      assert a + b == [a[0]] + (a[1..] + b);
      RunCons(s, a[0], a[1..] + b);
    }
  }

  /** A builder's own calls, none of them failing. */
  predicate Alone(events: seq<Event>, p: Pid) {
    forall e :: e in events ==>
      || e in {Begin(p), Rename(p), SyncContent(p), RenameReady(p), SyncReady(p), SyncParent(p), Return(p)}
      || (e.Claim? && e.p == p)
  }

  /** The calls of a failed builder's cleanup. */
  predicate Cleaning(events: seq<Event>, p: Pid) {
    forall e :: e in events ==> e == RemoveTree(p) || (e.Remove? && e.p == p)
  }

  /** One event of a builder that takes it to its next stage. */
  ghost predicate Leads(s: State, e: Event, p: Pid, pc: Pc) {
    Enabled(s, e) && Stage(Next(s, e), p, pc)
  }

  lemma OwnerResolves(s: State, p: Pid)
    requires Inv(s) && p in s.procs && s.procs[p].Active()
    ensures Resolves(s)
  {
    assert ProcessOk(s, p);
  }

  lemma {:induction false} MoveAll(s: State, p: Pid, ino: Ino, k: nat) returns (events: seq<Event>)
    requires Inv(s) && Stage(s, p, Moving(ino, k)) && k <= |CONTENT|
    ensures Run(s, events) && Inv(End(s, events)) && Stage(End(s, events), p, Moving(ino, |CONTENT|))
    ensures Alone(events, p)
    decreases |CONTENT| - k
  {
    if k == |CONTENT| { return []; }
    OwnerResolves(s, p);
    assert Leads(s, Rename(p), p, Moving(ino, k + 1));
    StepKeeps(s, Rename(p));
    var rest := MoveAll(Next(s, Rename(p)), p, ino, k + 1);
    RunCons(s, Rename(p), rest);
    events := [Rename(p)] + rest;
  }

  lemma Two(s: State, e: Event, f: Event)
    requires Enabled(s, e) && Enabled(Next(s, e), f)
    ensures Run(s, [e, f]) && End(s, [e, f]) == Next(Next(s, e), f)
  {
    RunCons(Next(s, e), f, []);
    RunCons(s, e, [f]);
    assert [e] + [f] == [e, f] && [f] + [] == [f];
  }

  lemma Announce(s: State, p: Pid, ino: Ino)
    requires Inv(s) && Stage(s, p, Moving(ino, |CONTENT|))
    ensures var events := [SyncContent(p), RenameReady(p)];
            Run(s, events) && Inv(End(s, events)) && Stage(End(s, events), p, Announced(ino))
  {
    OwnerResolves(s, p);
    StepKeeps(s, SyncContent(p));
    var t := Next(s, SyncContent(p));
    OwnerResolves(t, p);
    StepKeeps(t, RenameReady(p));
    Two(s, SyncContent(p), RenameReady(p));
  }

  lemma Finish(s: State, p: Pid, ino: Ino)
    requires Inv(s) && Stage(s, p, Announced(ino))
    ensures var events := [SyncReady(p), SyncParent(p)] + [Return(p)];
            Run(s, events) && Stage(End(s, events), p, Published(ino))
  {
    OwnerResolves(s, p);
    StepKeeps(s, SyncReady(p));
    var t := Next(s, SyncReady(p));
    StepKeeps(t, SyncParent(p));
    Two(s, SyncReady(p), SyncParent(p));
    var u := Next(t, SyncParent(p));
    RunCons(u, Return(p), []);
    assert [Return(p)] + [] == [Return(p)];
    RunAppend(s, [SyncReady(p), SyncParent(p)], [Return(p)]);
  }

  lemma Enter(s: State, p: Pid, ino: Ino)
    requires Inv(s) && OUTPUT !in s.parent.Live() && p !in s.procs && ino !in s.dirs
    ensures var events := [Begin(p), Claim(p, ino)];
            Run(s, events) && Inv(End(s, events)) && Stage(End(s, events), p, Moving(ino, 0))
  {
    StepKeeps(s, Begin(p));
    StepKeeps(Next(s, Begin(p)), Claim(p, ino));
    Two(s, Begin(p), Claim(p, ino));
  }

  lemma EnterAndMove(s: State, p: Pid, ino: Ino) returns (events: seq<Event>)
    requires Inv(s) && OUTPUT !in s.parent.Live() && p !in s.procs && ino !in s.dirs
    ensures Run(s, events) && Inv(End(s, events)) && Stage(End(s, events), p, Moving(ino, |CONTENT|))
    ensures Alone(events, p)
  {
    var first := [Begin(p), Claim(p, ino)];
    Enter(s, p, ino);
    var second := MoveAll(End(s, first), p, ino, 0);
    RunAppend(s, first, second);
    events := first + second;
  }

  /** From every state with the invariant and a free output path, a new builder alone gets READY into place. */
  lemma AnnounceAlone(s: State) returns (events: seq<Event>, p: Pid, ino: Ino)
    requires Inv(s) && OUTPUT !in s.parent.Live()
    ensures Run(s, events) && Inv(End(s, events)) && Stage(End(s, events), p, Announced(ino))
    ensures p !in s.procs && Alone(events, p)
  {
    p := FreshNat(s.procs.Keys);
    ino := FreshNat(s.dirs.Keys);
    var first := EnterAndMove(s, p, ino);
    Announce(End(s, first), p, ino);
    RunAppend(s, first, [SyncContent(p), RenameReady(p)]);
    events := first + [SyncContent(p), RenameReady(p)];
  }

  /** In every reachable state in which the output path is free, a new builder running alone publishes its bundle. */
  lemma FreePathIsPublishable(s: State) returns (events: seq<Event>, p: Pid, ino: Ino)
    requires Reachable(s) && s.parent.Valid() && OUTPUT !in s.parent.Live()
    ensures p !in s.procs && Alone(events, p) && Run(s, events)
    ensures Stage(End(s, events), p, Published(ino)) && Safe(End(s, events), p, ino)
  {
    ReachableInv(s);
    var first, q, i := AnnounceAlone(s);
    p, ino := q, i;
    Finish(End(s, first), p, ino);
    var last := [SyncReady(p), SyncParent(p)] + [Return(p)];
    RunAppend(s, first, last);
    events := first + last;
    RunKeeps(s, events);
    assert ProcessOk(End(s, events), p);
  }

  /** A run from the empty directory to a visible READY without all of its files. */
  lemma ReadyCanBeWrong() returns (events: seq<Event>)
    ensures Run(Initial(), events) && ShowsReady(End(Initial(), events)) && !ReadyIsTrue(End(Initial(), events))
  {
    assert Run(Initial(), []) && End(Initial(), []) == Initial();
    ReachableInv(Initial());
    var first, p, ino := AnnounceAlone(Initial());
    var second := LateFaultBreaksReady(End(Initial(), first), p);
    RunAppend(Initial(), first, second);
    events := first + second;
  }

  // ---- A builder that fails after it claimed the path.

  /** The cleanup of a failed builder removes names one by one. */
  lemma {:induction false} RemoveNames(s: State, p: Pid, ino: Ino, names: set<Name>) returns (events: seq<Event>)
    requires Inv(s) && Stage(s, p, Wiping(ino)) && Resolves(s) && s.dirs[ino].dir.Live().Keys == names
    ensures Run(s, events) && Inv(End(s, events)) && Stage(End(s, events), p, Wiping(ino)) && Cleaning(events, p)
    ensures Resolves(End(s, events)) && End(s, events).dirs[Target(End(s, events))].dir.Live() == map[]
    decreases names
  {
    OwnTarget(s, p);
    if names == {} { return []; }
    var n :| n in names;
    StepKeeps(s, Remove(p, n));
    var t := Next(s, Remove(p, n));
    assert t.dirs[ino].dir.Live() == s.dirs[ino].dir.Live() - {n};
    var rest := RemoveNames(t, p, ino, names - {n});
    RunCons(s, Remove(p, n), rest);
    events := [Remove(p, n)] + rest;
  }

  lemma WipeAlone(s: State, p: Pid, ino: Ino) returns (events: seq<Event>)
    requires Inv(s) && Stage(s, p, Wiping(ino))
    ensures Run(s, events) && Cleaning(events, p)
    ensures var t := End(s, events); Stage(t, p, Stopped) && t.parent.Valid() && OUTPUT !in t.parent.Live()
  {
    OwnerResolves(s, p);
    OwnTarget(s, p);
    var first := RemoveNames(s, p, ino, s.dirs[ino].dir.Live().Keys);
    var t := End(s, first);
    RunCons(t, RemoveTree(p), []);
    assert [RemoveTree(p)] + [] == [RemoveTree(p)];
    RunAppend(s, first, [RemoveTree(p)]);
    events := first + [RemoveTree(p)];
  }

  /** From every reachable state, the cleanup of a builder that fails while it holds the path frees the path. */
  lemma FailureFreesPath(s: State, p: Pid) returns (events: seq<Event>)
    requires Reachable(s) && p in s.procs && s.procs[p].Active() && !s.procs[p].Wiping?
    ensures Run(s, [Fault(p)] + events) && Cleaning(events, p)
    ensures var t := End(s, [Fault(p)] + events);
            Stage(t, p, Stopped) && t.parent.Valid() && OUTPUT !in t.parent.Live()
  {
    ReachableInv(s);
    StepKeeps(s, Fault(p));
    events := WipeAlone(Next(s, Fault(p)), p, s.procs[p].dir);
    RunCons(s, Fault(p), events);
  }
}
