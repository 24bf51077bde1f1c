/** Whole runs of the claim protocol. */
module LedgerRuns {
  import opened Basics
  import opened CrashDirectory
  import opened LedgerProtocol
  import opened LedgerSafety

  ghost predicate Run(s: State, events: seq<Event>)
    decreases |events|
  {
    events == [] || (Enabled(s, events[0]) && Run(Next(s, events[0]), events[1..]))
  }

  ghost function End(s: State, events: seq<Event>): (t: State)
    requires Run(s, events)
    decreases |events|
  {
    if events == [] then s else End(Next(s, events[0]), events[1..])
  }

  ghost predicate Reachable(s: State) {
    exists events :: Run(Initial(), events) && End(Initial(), events) == s
  }

  lemma {:induction false} RunKeeps(s: State, events: seq<Event>)
    requires Inv(s) && Run(s, events)
    ensures Inv(End(s, events))
    decreases |events|
  {
    if events != [] {
      StepKeeps(s, events[0]);
      RunKeeps(Next(s, events[0]), events[1..]);
    }
  }

  lemma ReachableInv(s: State)
    requires Reachable(s)
    ensures Inv(s)
  {
    var events :| Run(Initial(), events) && End(Initial(), events) == s;
    var init := Initial();
    forall n, ino ensures !init.dir.Ever(n, ino) {}
    RunKeeps(init, events);
  }

  // ---- Safety in every reachable state, including those left by power loss.

  ghost predicate Winner(s: State, p: Pid, key: Key) {
    p in s.procs && s.procs[p].key == key && s.procs[p].pc.Done? && s.procs[p].pc.outcome.Won?
  }

  /** At most one process ever returns success for an attempt. */
  lemma AtMostOneWinner(s: State, p: Pid, q: Pid, key: Key)
    requires Reachable(s) && Winner(s, p, key) && Winner(s, q, key)
    ensures p == q
  {
    ReachableInv(s);
    assert ProcessOk(s, p) && ProcessOk(s, q);
    BothBound(s.dir, Final(key), s.procs[p].pc.outcome.ino, s.procs[q].pc.outcome.ino);
  }

  lemma BothBound(d: Directory<Name, Ino>, n: Name, a: Ino, b: Ino)
    requires d.Valid() && d.Bound(n, a) && d.Bound(n, b)
    ensures a == b
  {
    assert d.trail[0][n] == a && d.trail[0][n] == b;
  }

  /** A visible final name holds one publisher's complete record for that key, fsynced and at mode 0400. */
  lemma VisibleClaimIsComplete(s: State, key: Key)
    requires Reachable(s) && s.dir.Valid() && Final(key) in s.dir.Live()
    ensures Sealed(s, key, s.dir.Live()[Final(key)])
  {
    ReachableInv(s);
    LiveIsEver(s.dir, Final(key));
    assert FinalOk(s, key, s.dir.Live()[Final(key)]);
  }

  /** The racy directory scan rejects nothing that the protocol or power loss can leave behind. */
  lemma ScanNeverRejects(s: State, p: Pid, name: Name)
    requires Reachable(s)
    ensures p in s.procs ==> s.procs[p].pc != Done(Rejected)
    ensures Enabled(s, Check(p, name)) ==> EntryAccepted(s, name)
  {
    ReachableInv(s);
    if p in s.procs { assert ProcessOk(s, p); }
    if Enabled(s, Check(p, name)) { EntryIsAccepted(s, name); }
  }

  // ---- A consumed attempt stays consumed.

  lemma DoneStays(s: State, e: Event, p: Pid)
    requires Enabled(s, e) && p in s.procs && s.procs[p].pc.Done?
    ensures p in Next(s, e).procs && Next(s, e).procs[p] == s.procs[p]
  {
  }

  lemma {:induction false} DoneStaysForever(s: State, events: seq<Event>, p: Pid)
    requires Run(s, events) && p in s.procs && s.procs[p].pc.Done?
    ensures p in End(s, events).procs && End(s, events).procs[p] == s.procs[p]
    decreases |events|
  {
    if events != [] {
      DoneStays(s, events[0], p);
      DoneStaysForever(Next(s, events[0]), events[1..], p);
    }
  }

  /**
   Once a process has returned success, whatever follows, power loss included: the claim stays durable with that
   process's record, nobody else wins the key, and every later attempt to link it is refused.
   */
  lemma ConsumedForever(s: State, events: seq<Event>, p: Pid, key: Key)
    requires Reachable(s) && Winner(s, p, key) && Run(s, events)
    ensures var t := End(s, events); var ino := s.procs[p].pc.outcome.ino;
            && Winner(t, p, key) && t.procs[p] == s.procs[p]
            && t.dir.Valid() && t.dir.Bound(Final(key), ino)
            && ino in t.files && t.files[ino] == File(p, s.procs[p].payload, RECORD_MODE, true)
            && (forall q :: Winner(t, q, key) ==> q == p)
            && (forall q :: Enabled(t, Link(q)) && t.procs[q].key == key ==>
                            Next(t, Link(q)).procs[q].pc.Abandoning? &&
                            Next(t, Link(q)).procs[q].pc.reason == AlreadyConsumed)
  {
    ReachableInv(s);
    RunKeeps(s, events);
    DoneStaysForever(s, events, p);
    var t, ino := End(s, events), s.procs[p].pc.outcome.ino;
    assert ProcessOk(t, p);
    assert Shows(t.dir.Live(), Final(key), ino);
    LiveIsEver(t.dir, Final(key));
    assert FinalOk(t, key, ino);
    forall q | Winner(t, q, key) ensures q == p {
      assert ProcessOk(t, q);
      BothBound(t.dir, Final(key), ino, t.procs[q].pc.outcome.ino);
    }
  }

  // ---- An attempt that is not visible can still be consumed.

  lemma {:induction false} RunAppend(s: State, a: seq<Event>, b: seq<Event>)
    requires Run(s, a) && Run(End(s, a), b)
    ensures Run(s, a + b) && End(s, a + b) == End(End(s, a), b)
    decreases |a|
  {
    if a == [] {
      assert a + b == b;
    } else {
      RunAppend(Next(s, a[0]), a[1..], b);
      assert (a + b)[1..] == a[1..] + b;
    }
  }

  lemma RunSnoc(s: State, a: seq<Event>, e: Event)
    requires Run(s, a) && Enabled(End(s, a), e)
    ensures Run(s, a + [e]) && End(s, a + [e]) == Next(End(s, a), e)
  {
    var t := End(s, a);
    assert [e][1..] == [];
    assert Run(Next(t, e), []);
    RunAppend(s, a, [e]);
  }

  /** The scan of a process that runs alone lists every visible name and accepts each. */
  lemma {:induction false} ListNames(s: State, p: Pid, names: set<Name>) returns (events: seq<Event>)
    requires DirectoryOk(s) && p in s.procs && s.procs[p].pc == Listing({})
    requires forall n :: n in names ==> n in s.dir.Live()
    ensures Run(s, events) && End(s, events) == Move(s, p, Listing(names))
    decreases names
  {
    if names == {} {
      events := [];
      assert Move(s, p, Listing({})) == s;
    } else {
      var n :| n in names;
      var front := ListNames(s, p, names - {n});
      events := front + [List(p, n)];
      RunSnoc(s, front, List(p, n));
      assert names - {n} + {n} == names;
    }
  }

  lemma {:induction false} CheckNames(s: State, p: Pid, names: set<Name>) returns (events: seq<Event>)
    requires DirectoryOk(s) && p in s.procs && s.procs[p].pc == Checking(names)
    requires forall n :: n in names ==> n in s.dir.Live()
    ensures Run(s, events) && End(s, events) == Move(s, p, Checking({}))
    decreases names
  {
    if names == {} {
      events := [];
      assert Move(s, p, Checking({})) == s;
    } else {
      var n :| n in names;
      EntryIsAccepted(s, n);
      var t := Next(s, Check(p, n));
      DirectoryStays(s, p, Checking(names - {n}));
      var rest := CheckNames(t, p, names - {n});
      events := [Check(p, n)] + rest;
      assert events[1..] == rest;
    }
  }

  lemma DirectoryStays(s: State, p: Pid, pc: Pc)
    requires DirectoryOk(s) && p in s.procs
    ensures DirectoryOk(Move(s, p, pc))
  {
    forall key, ino ensures FinalOk(Move(s, p, pc), key, ino) { assert FinalOk(s, key, ino); }
  }

  lemma RunCons(s: State, e: Event, rest: seq<Event>)
    requires Enabled(s, e) && Run(Next(s, e), rest)
    ensures Run(s, [e] + rest) && End(s, [e] + rest) == End(Next(s, e), rest)
  {
    assert ([e] + rest)[1..] == rest;
  }

  lemma FreshFor(s: State) returns (token: nat, ino: Ino)
    requires s.dir.Valid()
    ensures Temp(token) !in s.dir.Live() && ino !in s.files
  {
    ino := FreshNat(s.files.Keys);
    var tokens := set n: Name | n in s.dir.Live().Keys && n.Temp? :: n.token;
    token := FreshNat(tokens);
    assert forall n: Name :: n in s.dir.Live() && n.Temp? ==> n.token in tokens;
  }

  lemma ScanAlone(s: State, p: Pid) returns (events: seq<Event>)
    requires DirectoryOk(s) && p in s.procs && s.procs[p].pc == Listing({})
    ensures Run(s, events) && End(s, events) == Move(s, p, Cleared)
  {
    var names := s.dir.Live().Keys;
    var list := ListNames(s, p, names);
    DirectoryStays(s, p, Checking(names));
    var t := Move(s, p, Checking(names));
    MoveTwice(s, p, Listing(names), Checking(names));
    RunSnoc(s, list, EndList(p));
    var check := CheckNames(t, p, names);
    MoveTwice(s, p, Checking(names), Checking({}));
    MoveTwice(s, p, Checking({}), Cleared);
    RunSnoc(t, check, EndCheck(p));
    RunAppend(s, list + [EndList(p)], check + [EndCheck(p)]);
    events := list + [EndList(p)] + (check + [EndCheck(p)]);
  }

  lemma MoveTwice(s: State, p: Pid, a: Pc, b: Pc)
    requires p in s.procs
    ensures Move(Move(s, p, a), p, b) == Move(s, p, b)
  {
    assert Move(Move(s, p, a), p, b).procs == Move(s, p, b).procs;
  }
}
