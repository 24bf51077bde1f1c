/** What every run of the claim protocol keeps, and what follows for consumed attempts. */
module LedgerSafety {
  import opened CrashDirectory
  import opened LedgerProtocol

  // ---- The invariant.

  /** The inode holds the complete record of its maker, who claims this key. */
  ghost predicate Sealed(s: State, key: Key, ino: Ino) {
    && ino in s.files && s.files[ino].synced && s.files[ino].mode == RECORD_MODE
    && s.files[ino].maker in s.procs
    && s.procs[s.files[ino].maker].key == key
    && s.files[ino].data == s.procs[s.files[ino].maker].payload
  }

  ghost predicate Shows(m: map<Name, Ino>, n: Name, ino: Ino) {
    n in m && m[n] == ino
  }

  ghost predicate FinalOk(s: State, key: Key, ino: Ino)
    requires s.dir.Valid()
  {
    s.dir.Ever(Final(key), ino) ==> Shows(s.dir.Live(), Final(key), ino) && Sealed(s, key, ino)
  }

  ghost predicate DirectoryOk(s: State) {
    && s.dir.Valid()
    && (forall n, ino :: s.dir.Ever(n, ino) ==> ino in s.files)
    && (forall key, ino :: FinalOk(s, key, ino))
    && (forall i :: i in s.files ==> s.files[i].mode in {CREATE_MODE, RECORD_MODE})
  }

  ghost predicate Claimed(s: State, p: Pid, ino: Ino)
    requires p in s.procs
  {
    s.dir.Bound(Final(s.procs[p].key), ino) && ino in s.files && s.files[ino].maker == p
  }

  ghost predicate HoldingOk(s: State, p: Pid)
    requires s.dir.Valid() && p in s.procs && s.procs[p].pc.Holding()
  {
    var pc := s.procs[p].pc;
    && pc.temp.Temp? && Shows(s.dir.Live(), pc.temp, pc.ino)
    && pc.ino in s.files && s.files[pc.ino].maker == p
    && (pc.Writing? || pc.Written? || pc.Locked? ==> !s.files[pc.ino].synced)
    && (pc.Written? || pc.Locked? ==> s.files[pc.ino].data == s.procs[p].payload)
    && (pc.Locked? ==> s.files[pc.ino].mode == RECORD_MODE)
    && (pc.Flushed? || pc.Linked? || pc.Persisted? ==> Sealed(s, s.procs[p].key, pc.ino))
    && (pc.Linked? ==> Shows(s.dir.Live(), Final(s.procs[p].key), pc.ino))
    && (pc.Persisted? ==> Claimed(s, p, pc.ino))
    && (pc.Abandoning? ==> pc.reason == AlreadyConsumed || pc.reason == Failed)
  }

  ghost predicate NamesSeen(s: State, names: set<Name>)
    requires s.dir.Valid()
  {
    forall n: Name :: n in names && n.Final? ==> n in s.dir.Live()
  }

  ghost predicate ProcessOk(s: State, p: Pid)
    requires s.dir.Valid() && p in s.procs
  {
    var pc := s.procs[p].pc;
    && (pc.Listing? ==> NamesSeen(s, pc.listed))
    && (pc.Checking? ==> NamesSeen(s, pc.todo))
    && (pc.Holding() ==> HoldingOk(s, p))
    && (pc.Cleaned? ==> Claimed(s, p, pc.ino))
    && (pc.Leaving? ==> pc.reason == AlreadyConsumed || pc.reason == Failed)
    && (pc.Done? ==> pc.outcome != Rejected)
    && (pc.Done? && pc.outcome.Won? ==> Claimed(s, p, pc.outcome.ino))
  }

  ghost predicate Inv(s: State) {
    DirectoryOk(s) && forall p :: p in s.procs ==> ProcessOk(s, p)
  }

  // ---- Steps that leave a process alone.

  /** Everything this process relies on is still there. */
  ghost predicate Undisturbed(s: State, t: State, q: Pid)
    requires s.dir.Valid() && t.dir.Valid()
  {
    && q in s.procs && q in t.procs && t.procs[q] == s.procs[q]
    && (forall i :: i in s.files && s.files[i].maker == q ==> i in t.files && t.files[i] == s.files[i])
    && (forall n: Name, ino: Ino ::
          Shows(s.dir.Live(), n, ino) && (n.Final? || (ino in s.files && s.files[ino].maker == q)) ==>
          Shows(t.dir.Live(), n, ino))
    && (forall key, ino :: s.dir.Bound(Final(key), ino) ==> t.dir.Bound(Final(key), ino))
  }

  lemma UndisturbedOk(s: State, t: State, q: Pid)
    requires s.dir.Valid() && t.dir.Valid() && Undisturbed(s, t, q)
    requires ProcessOk(s, q)
    ensures ProcessOk(t, q)
  {
    forall n: Name | n.Final? && n in s.dir.Live() ensures n in t.dir.Live() {
      assert Shows(s.dir.Live(), n, s.dir.Live()[n]);
      assert Shows(t.dir.Live(), n, s.dir.Live()[n]);
    }
  }

  // ---- Each kind of step keeps the invariant.

  ghost predicate InvExcept(s: State, p: Pid) {
    DirectoryOk(s) && forall q :: q in s.procs && q != p ==> ProcessOk(s, q)
  }

  lemma MoveKeeps(s: State, p: Pid, pc: Pc)
    requires InvExcept(s, p) && p in s.procs
    requires ProcessOk(Move(s, p, pc), p)
    ensures Inv(Move(s, p, pc))
  {
    var t := Move(s, p, pc);
    forall key, ino ensures FinalOk(t, key, ino) { assert FinalOk(s, key, ino); }
    forall q | q in t.procs ensures ProcessOk(t, q) {
      if q != p { UndisturbedOk(s, t, q); }
    }
  }

  lemma StoreKeeps(s: State, p: Pid, ino: Ino, file: File)
    requires InvExcept(s, p) && p in s.procs
    requires ino in s.files ==> s.files[ino].maker == p && !s.files[ino].synced
    requires file.maker == p && file.mode in {CREATE_MODE, RECORD_MODE}
    ensures InvExcept(Store(s, ino, file), p)
  {
    var t := Store(s, ino, file);
    forall key, i ensures FinalOk(t, key, i) { assert FinalOk(s, key, i); }
    forall q | q in t.procs && q != p ensures ProcessOk(t, q) { UndisturbedOk(s, t, q); }
  }

  /** A directory change keeps final names and other processes' temporaries, and adds only sealed final names. */
  ghost predicate FairChange(s: State, p: Pid, m: map<Name, Ino>)
    requires s.dir.Valid()
  {
    && (forall n: Name, i: Ino :: Shows(m, n, i) ==>
          Shows(s.dir.Live(), n, i) || (i in s.files && (n.Final? ==> n !in s.dir.Live() && Sealed(s, n.key, i))))
    && (forall n: Name, i: Ino :: Shows(s.dir.Live(), n, i) ==>
          Shows(m, n, i) || (n.Temp? && i in s.files && s.files[i].maker == p))
  }

  lemma ChangeKeeps(s: State, p: Pid, m: map<Name, Ino>)
    requires InvExcept(s, p) && FairChange(s, p, m)
    ensures InvExcept(Bind(s, m), p)
  {
    var t := Bind(s, m);
    forall n, i ensures t.dir.Ever(n, i) ==> i in t.files {
      ChangedShows(s.dir, m, n, i);
      LiveIsEver(s.dir, n);
      if t.dir.Ever(n, i) && !s.dir.Ever(n, i) { assert Shows(m, n, i); }
    }
    forall key, i ensures FinalOk(t, key, i) {
      ChangedShows(s.dir, m, Final(key), i);
      LiveIsEver(s.dir, Final(key));
      assert FinalOk(s, key, i);
      if t.dir.Ever(Final(key), i) && !s.dir.Ever(Final(key), i) { assert Shows(m, Final(key), i); }
    }
    forall key, i ensures s.dir.Bound(Final(key), i) ==> t.dir.Bound(Final(key), i) {
      ChangedShows(s.dir, m, Final(key), i);
      if s.dir.Bound(Final(key), i) { assert Shows(s.dir.Live(), Final(key), i); }
    }
    forall q | q in t.procs && q != p ensures ProcessOk(t, q) { UndisturbedOk(s, t, q); }
  }

  lemma SyncKeeps(s: State, p: Pid)
    requires InvExcept(s, p)
    ensures InvExcept(s.(dir := s.dir.Synced()), p)
    ensures forall n, ino :: Shows(s.dir.Live(), n, ino) ==> s.dir.Synced().Bound(n, ino)
    ensures p in s.procs && ProcessOk(s, p) ==> ProcessOk(s.(dir := s.dir.Synced()), p)
  {
    var t := s.(dir := s.dir.Synced());
    forall n, ino ensures t.dir.Ever(n, ino) ==> s.dir.Ever(n, ino) {
      if t.dir.Ever(n, ino) { assert s.dir.trail[|s.dir.trail| - 1] == t.dir.trail[0]; }
    }
    forall key, i ensures FinalOk(t, key, i) { assert FinalOk(s, key, i); }
    forall q | q in t.procs && (q != p || ProcessOk(s, p)) ensures ProcessOk(t, q) {
      UndisturbedOk(s, t, q);
    }
  }

  lemma PowerLossKeeps(s: State, left: map<Name, Ino>, contents: map<Ino, File>)
    requires Inv(s) && Survivor(s.dir, left) && FilesSurvive(s.files, contents)
    ensures Inv(State(Directory([left]), contents, Kill(s.procs)))
  {
    var t := State(Directory([left]), contents, Kill(s.procs));
    forall n, ino | t.dir.Ever(n, ino) ensures s.dir.Ever(n, ino) { SurvivorShows(s.dir, left, n); }
    forall key, ino ensures FinalOk(t, key, ino) { assert FinalOk(s, key, ino); }
    forall p | p in t.procs ensures ProcessOk(t, p) {
      assert ProcessOk(s, p);
      SurvivorShows(s.dir, left, Final(s.procs[p].key));
    }
  }

  // ---- Every step keeps the invariant.

  lemma FileStepKeeps(s: State, e: Event)
    requires Inv(s) && Enabled(s, e) && (e.Write? || e.FinishWrite? || e.Chmod? || e.SyncFile?)
    ensures Inv(Next(s, e))
  {
    var p := e.p;
    var pc := PcOf(s, p);
    assert ProcessOk(s, p) && HoldingOk(s, p);
    var file := Next(s, e).files[pc.ino];
    StoreKeeps(s, p, pc.ino, file);
    MoveKeeps(Store(s, pc.ino, file), p, Next(s, e).procs[p].pc);
    assert Next(s, e) == Move(Store(s, pc.ino, file), p, Next(s, e).procs[p].pc);
  }

  lemma CreateKeeps(s: State, e: Event)
    requires Inv(s) && Enabled(s, e) && e.Create?
    ensures Inv(Next(s, e))
  {
    var p, n := e.p, Temp(e.token);
    if n in s.dir.Live() {
      MoveKeeps(s, p, Done(Failed));
    } else {
      var file := File(p, [], CREATE_MODE, false);
      var u := Store(s, e.ino, file);
      StoreKeeps(s, p, e.ino, file);
      var m := s.dir.Live()[n := e.ino];
      ChangeKeeps(u, p, m);
      MoveKeeps(Bind(u, m), p, Writing(n, e.ino));
    }
  }

  lemma LinkKeeps(s: State, e: Event)
    requires Inv(s) && Enabled(s, e) && e.Link?
    ensures Inv(Next(s, e))
  {
    var p := e.p;
    var pc, final := PcOf(s, p), Final(s.procs[p].key);
    assert ProcessOk(s, p) && HoldingOk(s, p);
    if final in s.dir.Live() {
      MoveKeeps(s, p, Abandoning(pc.temp, pc.ino, AlreadyConsumed));
    } else {
      var m := s.dir.Live()[final := pc.ino];
      ChangeKeeps(s, p, m);
      MoveKeeps(Bind(s, m), p, Linked(pc.temp, pc.ino));
    }
  }

  lemma UnlinkKeeps(s: State, e: Event)
    requires Inv(s) && Enabled(s, e) && (e.Unlink? || e.Drop?)
    ensures Inv(Next(s, e))
  {
    var p := e.p;
    var pc := PcOf(s, p);
    assert ProcessOk(s, p) && HoldingOk(s, p);
    var m := s.dir.Live() - {pc.temp};
    ChangeKeeps(s, p, m);
    if e.Unlink? { ChangedShows(s.dir, m, Final(s.procs[p].key), pc.ino); }
    MoveKeeps(Bind(s, m), p, Next(s, e).procs[p].pc);
  }

  lemma SyncStepKeeps(s: State, e: Event)
    requires Inv(s) && Enabled(s, e) && (e.SyncDir? || e.SyncLast? || e.SyncDrop? || e.Writeback?)
    ensures Inv(Next(s, e))
  {
    if e.Writeback? {
      forall p ensures p in s.procs ==> ProcessOk(s.(dir := s.dir.Synced()), p) { SyncKeeps(s, p); }
      SyncKeeps(s, 0);
    } else {
      var p := e.p;
      assert ProcessOk(s, p);
      if e.SyncDir? { assert HoldingOk(s, p); }
      SyncKeeps(s, p);
      MoveKeeps(s.(dir := s.dir.Synced()), p, Next(s, e).procs[p].pc);
    }
  }

  lemma ScanStepKeeps(s: State, e: Event)
    requires Inv(s) && Enabled(s, e)
    requires e.Begin? || e.List? || e.EndList? || e.Check? || e.EndCheck? || e.Fault? || e.Abort?
    ensures Inv(Next(s, e))
  {
    var p := e.p;
    if e.Begin? {
      BeginKeeps(s, e);
    } else {
      assert ProcessOk(s, p);
      if e.Check? { EntryIsAccepted(s, e.name); }
      MoveKeeps(s, p, Next(s, e).procs[p].pc);
    }
  }

  lemma BeginKeeps(s: State, e: Event)
    requires Inv(s) && Enabled(s, e) && e.Begin?
    ensures Inv(Next(s, e))
  {
    var t := Next(s, e);
    forall key, ino ensures FinalOk(t, key, ino) { assert FinalOk(s, key, ino); }
    forall q | q in t.procs ensures ProcessOk(t, q) {
      if q != e.p { UndisturbedOk(s, t, q); }
    }
  }

  /** The directory scan accepts every entry that was visible while it listed. */
  lemma EntryIsAccepted(s: State, n: Name)
    requires DirectoryOk(s) && (n.Final? ==> n in s.dir.Live())
    ensures EntryAccepted(s, n)
  {
    if n in s.dir.Live() {
      LiveIsEver(s.dir, n);
      if n.Final? { assert FinalOk(s, n.key, s.dir.Live()[n]); }
    }
  }

  lemma StepKeeps(s: State, e: Event)
    requires Inv(s) && Enabled(s, e)
    ensures Inv(Next(s, e))
  {
    if e.Write? || e.FinishWrite? || e.Chmod? || e.SyncFile? {
      FileStepKeeps(s, e);
    } else if e.Create? {
      CreateKeeps(s, e);
    } else if e.Link? {
      LinkKeeps(s, e);
    } else if e.Unlink? || e.Drop? {
      UnlinkKeeps(s, e);
    } else if e.SyncDir? || e.SyncLast? || e.SyncDrop? || e.Writeback? {
      SyncStepKeeps(s, e);
    } else if e.PowerLoss? {
      PowerLossKeeps(s, e.left, e.contents);
    } else {
      ScanStepKeeps(s, e);
    }
  }
}
