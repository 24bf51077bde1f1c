/** What processes of the claim protocol leave behind: those that finish with an answer leave no temporary. */
module LedgerTidy {
  import opened CrashDirectory
  import opened LedgerProtocol
  import opened LedgerSafety
  import opened LedgerRuns

  /** No temporary of this process is, or was since the last fsync, in the directory. */
  ghost predicate NoTemporary(s: State, p: Pid) {
    forall n: Name, i: Ino :: n.Temp? && s.dir.Ever(n, i) && i in s.files ==> s.files[i].maker != p
  }

  /** The same for the directory as it shows now. */
  ghost predicate NoneShows(s: State, p: Pid)
    requires s.dir.Valid()
  {
    forall n: Name, i: Ino :: n.Temp? && Shows(s.dir.Live(), n, i) && i in s.files ==> s.files[i].maker != p
  }

  /** Its one file, and the one temporary name of that file. */
  ghost predicate OwnsOnly(s: State, p: Pid, temp: Name, ino: Ino) {
    && ino in s.files && s.files[ino].maker == p
    && (forall i :: i in s.files && s.files[i].maker == p ==> i == ino)
    && (forall n: Name :: n.Temp? && s.dir.Ever(n, ino) ==> n == temp)
  }

  ghost predicate OwnsNothing(s: State, p: Pid) {
    forall i :: i in s.files ==> s.files[i].maker != p
  }

  ghost predicate TidyProcess(s: State, p: Pid, pc: Pc)
    requires s.dir.Valid()
  {
    && (pc.Listing? || pc.Checking? || pc.Cleared? ==> OwnsNothing(s, p))
    && (pc.Holding() ==> OwnsOnly(s, p, pc.temp, pc.ino))
    && (pc.Cleaned? || pc.Leaving? ==> NoneShows(s, p))
    && (pc.Done? && (pc.outcome.Won? || pc.outcome.AlreadyConsumed?) ==> NoTemporary(s, p))
  }

  ghost predicate TidyExcept(s: State, p: Pid) {
    && s.dir.Valid()
    && (forall i :: i in s.files ==> s.files[i].maker in s.procs)
    && (forall n, i :: s.dir.Ever(n, i) ==> i in s.files)
    && (forall q :: q in s.procs && q != p ==> TidyProcess(s, q, s.procs[q].pc))
  }

  ghost predicate Tidy(s: State) {
    forall p :: TidyExcept(s, p)
  }

  lemma TidyAll(s: State, p: Pid)
    ensures Tidy(s) <==> TidyExcept(s, p) && (p in s.procs ==> TidyProcess(s, p, s.procs[p].pc))
  {
    if Tidy(s) { assert TidyExcept(s, p) && TidyExcept(s, p + 1); }
  }

  // ---- Single changes keep everybody else tidy.

  lemma StoreTidy(s: State, p: Pid, ino: Ino, file: File)
    requires TidyExcept(s, p) && p in s.procs && file.maker == p
    requires ino in s.files ==> s.files[ino].maker == p
    ensures TidyExcept(Store(s, ino, file), p)
  {
    var t := Store(s, ino, file);
    forall q | q in s.procs && q != p ensures TidyProcess(t, q, t.procs[q].pc) {
      var pc := s.procs[q].pc;
      assert TidyProcess(s, q, pc);
      if pc.Holding() { assert OwnsOnly(t, q, pc.temp, pc.ino); }
    }
  }

  /** A directory change that adds temporaries of `p` at most. */
  ghost predicate AddsOwn(s: State, p: Pid, m: map<Name, Ino>)
    requires s.dir.Valid()
  {
    forall n, i :: Shows(m, n, i) ==>
      i in s.files && (Shows(s.dir.Live(), n, i) || n.Final? || s.files[i].maker == p)
  }

  lemma LiveAndOwn(s: State, p: Pid, m: map<Name, Ino>, own: Ino)
    requires s.dir.Valid() && (forall n, i :: s.dir.Ever(n, i) ==> i in s.files)
    requires own in s.files && s.files[own].maker == p
    requires forall n, i :: Shows(m, n, i) ==> Shows(s.dir.Live(), n, i) || i == own
    ensures AddsOwn(s, p, m)
  {
    forall n, i | Shows(m, n, i) ensures i in s.files {
      if Shows(s.dir.Live(), n, i) { LiveIsEver(s.dir, n); }
    }
  }

  lemma ChangeAdds(d: Directory<Name, Ino>, m: map<Name, Ino>)
    requires d.Valid()
    ensures forall n, i :: d.Changed(m).Ever(n, i) <==> d.Ever(n, i) || Shows(m, n, i)
    ensures forall n, i :: Shows(d.Live(), n, i) ==> d.Ever(n, i)
  {
    forall n, i ensures d.Changed(m).Ever(n, i) <==> d.Ever(n, i) || Shows(m, n, i) { ChangedShows(d, m, n, i); }
    forall n, i | Shows(d.Live(), n, i) ensures d.Ever(n, i) { LiveIsEver(d, n); }
  }

  lemma BindTidy(s: State, p: Pid, m: map<Name, Ino>)
    requires TidyExcept(s, p) && AddsOwn(s, p, m)
    ensures TidyExcept(Bind(s, m), p)
  {
    var t := Bind(s, m);
    ChangeAdds(s.dir, m);
    forall q | q in s.procs && q != p ensures TidyProcess(t, q, t.procs[q].pc) {
      var pc := s.procs[q].pc;
      assert TidyProcess(s, q, pc);
      if pc.Holding() { assert OwnsOnly(t, q, pc.temp, pc.ino); }
    }
  }

  lemma SyncShows(d: Directory<Name, Ino>)
    requires d.Valid()
    ensures forall n, i :: d.Synced().Ever(n, i) <==> Shows(d.Live(), n, i)
    ensures forall n, i :: Shows(d.Live(), n, i) ==> d.Ever(n, i)
  {
    assert d.Synced().trail[0] == d.Live();
    forall n, i | Shows(d.Live(), n, i) ensures d.Ever(n, i) && d.Synced().Ever(n, i) { LiveIsEver(d, n); }
  }

  lemma SyncTidy(s: State, p: Pid)
    requires TidyExcept(s, p)
    ensures TidyExcept(s.(dir := s.dir.Synced()), p)
  {
    var t := s.(dir := s.dir.Synced());
    SyncShows(s.dir);
    forall q | q in s.procs && q != p ensures TidyProcess(t, q, t.procs[q].pc) {
      var pc := s.procs[q].pc;
      assert TidyProcess(s, q, pc);
      if pc.Holding() { assert OwnsOnly(t, q, pc.temp, pc.ino); }
    }
  }

  lemma MoveTidy(s: State, p: Pid, pc: Pc)
    requires TidyExcept(s, p) && p in s.procs && TidyProcess(s, p, pc)
    ensures Tidy(Move(s, p, pc))
  {
    var t := Move(s, p, pc);
    forall q | q in s.procs && q != p ensures TidyProcess(t, q, t.procs[q].pc) {
      assert TidyProcess(s, q, s.procs[q].pc);
    }
    assert TidyProcess(t, p, pc) && TidyExcept(t, p);
    TidyAll(t, p);
  }

  // ---- Every step keeps everybody tidy.

  lemma CreateStaysTidy(s: State, p: Pid, temp: Name, ino: Ino)
    requires Tidy(s) && p in s.procs && s.procs[p].pc == Cleared && ino !in s.files && temp.Temp?
    ensures s.dir.Valid()
    ensures Tidy(Move(Bind(Store(s, ino, File(p, [], CREATE_MODE, false)), s.dir.Live()[temp := ino]),
                      p, Writing(temp, ino)))
  {
    TidyAll(s, p);
    var u, m := Store(s, ino, File(p, [], CREATE_MODE, false)), s.dir.Live()[temp := ino];
    StoreTidy(s, p, ino, File(p, [], CREATE_MODE, false));
    ChangeAdds(s.dir, m);
    LiveAndOwn(u, p, m, ino);
    BindTidy(u, p, m);
    assert OwnsOnly(Bind(u, m), p, temp, ino);
    MoveTidy(Bind(u, m), p, Writing(temp, ino));
  }

  /** A change of its own file by a process that holds it, and the next stage of holding it. */
  lemma FileStaysTidy(s: State, p: Pid, file: File, next: Pc)
    requires Tidy(s) && p in s.procs && s.procs[p].pc.Holding() && file.maker == p
    requires next.Holding() && next.temp == s.procs[p].pc.temp && next.ino == s.procs[p].pc.ino
    ensures Tidy(Move(Store(s, s.procs[p].pc.ino, file), p, next))
  {
    TidyAll(s, p);
    var pc := s.procs[p].pc;
    StoreTidy(s, p, pc.ino, file);
    assert OwnsOnly(Store(s, pc.ino, file), p, pc.temp, pc.ino);
    MoveTidy(Store(s, pc.ino, file), p, next);
  }

  lemma LinkStaysTidy(s: State, p: Pid, key: Key)
    requires Tidy(s) && p in s.procs && s.procs[p].pc.Flushed?
    ensures s.dir.Valid()
    ensures var pc := s.procs[p].pc;
            Tidy(Move(Bind(s, s.dir.Live()[Final(key) := pc.ino]), p, Linked(pc.temp, pc.ino)))
  {
    TidyAll(s, p);
    var pc := s.procs[p].pc;
    var m := s.dir.Live()[Final(key) := pc.ino];
    ChangeAdds(s.dir, m);
    LiveAndOwn(s, p, m, pc.ino);
    BindTidy(s, p, m);
    assert OwnsOnly(Bind(s, m), p, pc.temp, pc.ino);
    MoveTidy(Bind(s, m), p, Linked(pc.temp, pc.ino));
  }

  lemma UnlinkStaysTidy(s: State, p: Pid, next: Pc)
    requires Tidy(s) && p in s.procs && s.procs[p].pc.Holding()
    requires next.Cleaned? || next.Leaving? || next == Done(Failed)
    ensures s.dir.Valid()
    ensures Tidy(Move(Bind(s, s.dir.Live() - {s.procs[p].pc.temp}), p, next))
  {
    TidyAll(s, p);
    var pc := s.procs[p].pc;
    var m := s.dir.Live() - {pc.temp};
    ChangeAdds(s.dir, m);
    LiveAndOwn(s, p, m, pc.ino);
    BindTidy(s, p, m);
    assert NoneShows(Bind(s, m), p);
    MoveTidy(Bind(s, m), p, next);
  }

  lemma SyncStaysTidy(s: State, p: Pid, next: Pc)
    requires Tidy(s) && p in s.procs
    requires var pc := s.procs[p].pc;
             || (pc.Linked? && next == Persisted(pc.temp, pc.ino)) || ((pc.Cleaned? || pc.Leaving?) && next.Done?)
    ensures s.dir.Valid()
    ensures Tidy(Move(s.(dir := s.dir.Synced()), p, next))
  {
    TidyAll(s, p);
    var pc, t := s.procs[p].pc, s.(dir := s.dir.Synced());
    SyncShows(s.dir);
    SyncTidy(s, p);
    if pc.Linked? { assert OwnsOnly(t, p, pc.temp, pc.ino); } else { assert NoTemporary(t, p); }
    MoveTidy(t, p, next);
  }

  lemma PowerLossStaysTidy(s: State, left: map<Name, Ino>, contents: map<Ino, File>)
    requires Tidy(s) && Survivor(s.dir, left) && FilesSurvive(s.files, contents)
    ensures Tidy(State(Directory([left]), contents, Kill(s.procs)))
  {
    var t := State(Directory([left]), contents, Kill(s.procs));
    TidyAll(s, 0);
    forall n, i | t.dir.Ever(n, i) ensures s.dir.Ever(n, i) { SurvivorShows(s.dir, left, n); }
    forall p | p in t.procs ensures TidyProcess(t, p, t.procs[p].pc) { assert TidyExcept(s, p + 1); }
  }

  lemma BeginStaysTidy(s: State, p: Pid, process: Process)
    requires Tidy(s) && p !in s.procs && process.pc.Listing?
    ensures Tidy(s.(procs := s.procs[p := process]))
  {
    var t := s.(procs := s.procs[p := process]);
    TidyAll(s, p);
    forall q | q in t.procs && q != p ensures TidyProcess(t, q, t.procs[q].pc) {
      assert TidyProcess(s, q, s.procs[q].pc);
    }
    assert OwnsNothing(t, p) && TidyExcept(t, p);
    TidyAll(t, p);
  }

  lemma WritebackStaysTidy(s: State)
    requires Tidy(s)
    ensures s.dir.Valid() && Tidy(s.(dir := s.dir.Synced()))
  {
    assert TidyExcept(s, 0);
    forall p ensures TidyExcept(s.(dir := s.dir.Synced()), p) { SyncTidy(s, p); }
  }

  lemma StageStaysTidy(s: State, p: Pid, next: Pc)
    requires Tidy(s) && p in s.procs
    requires s.dir.Valid() && (TidyProcess(s, p, s.procs[p].pc) ==> TidyProcess(s, p, next))
    ensures Tidy(Move(s, p, next))
  {
    TidyAll(s, p);
    MoveTidy(s, p, next);
  }

  lemma CallStaysTidy(s: State, e: Event)
    requires Tidy(s) && Inv(s) && Enabled(s, e)
    requires e.Create? || e.Link? || e.Unlink? || e.Drop?
    ensures Tidy(Next(s, e))
  {
    var p := e.p;
    if e.Create? && Temp(e.token) !in s.dir.Live() {
      CreateStaysTidy(s, p, Temp(e.token), e.ino);
    } else if e.Link? && Final(s.procs[p].key) !in s.dir.Live() {
      LinkStaysTidy(s, p, s.procs[p].key);
    } else if e.Create? || e.Link? {
      StageStaysTidy(s, p, Next(s, e).procs[p].pc);
    } else {
      assert ProcessOk(s, p);
      UnlinkStaysTidy(s, p, Next(s, e).procs[p].pc);
    }
  }

  lemma StepStaysTidy(s: State, e: Event)
    requires Tidy(s) && Inv(s) && Enabled(s, e)
    ensures Tidy(Next(s, e))
  {
    if e.Create? || e.Link? || e.Unlink? || e.Drop? {
      CallStaysTidy(s, e);
    } else if e.Write? || e.FinishWrite? || e.Chmod? || e.SyncFile? {
      FileStep(s, e);
    } else if e.SyncDir? || e.SyncLast? || e.SyncDrop? {
      SyncStaysTidy(s, e.p, Next(s, e).procs[e.p].pc);
    } else if e.Writeback? {
      WritebackStaysTidy(s);
    } else if e.PowerLoss? {
      PowerLossStaysTidy(s, e.left, e.contents);
    } else if e.Begin? {
      BeginStaysTidy(s, e.p, Next(s, e).procs[e.p]);
    } else {
      StageStaysTidy(s, e.p, Next(s, e).procs[e.p].pc);
    }
  }

  lemma FileStep(s: State, e: Event)
    requires Tidy(s) && Inv(s) && Enabled(s, e) && (e.Write? || e.FinishWrite? || e.Chmod? || e.SyncFile?)
    ensures Tidy(Next(s, e))
  {
    var p, t := e.p, Next(s, e);
    var pc := s.procs[p].pc;
    assert ProcessOk(s, p);
    FileStaysTidy(s, p, t.files[pc.ino], t.procs[p].pc);
    assert t.procs == s.procs[p := s.procs[p].(pc := t.procs[p].pc)];
  }

  lemma {:induction false} RunStaysTidy(s: State, events: seq<Event>)
    requires Tidy(s) && Inv(s) && Run(s, events)
    ensures Tidy(End(s, events))
    decreases |events|
  {
    if events != [] {
      StepKeeps(s, events[0]);
      StepStaysTidy(s, events[0]);
      RunStaysTidy(Next(s, events[0]), events[1..]);
    }
  }

  /**
   A process that returned success, or that the attempt is already consumed, has no temporary in the directory, and
   none comes back with power loss. Files that crashed or failed processes left may remain; the scan accepts them.
   */
  lemma FinishedLeavesNothing(s: State, p: Pid, n: Name)
    requires Reachable(s) && p in s.procs && s.procs[p].pc.Done?
    requires s.procs[p].pc.outcome.Won? || s.procs[p].pc.outcome == AlreadyConsumed
    ensures s.dir.Valid() && (n.Temp? && n in s.dir.Live() ==>
              s.dir.Live()[n] in s.files && s.files[s.dir.Live()[n]].maker != p)
    ensures NoTemporary(s, p)
  {
    var events :| Run(Initial(), events) && End(Initial(), events) == s;
    var init := Initial();
    forall n, i ensures !init.dir.Ever(n, i) {}
    assert Run(init, []) && End(init, []) == init;
    ReachableInv(init);
    assert Tidy(init);
    RunStaysTidy(init, events);
    TidyAll(s, p);
    LiveIsEver(s.dir, n);
  }
}
