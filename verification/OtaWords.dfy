/** Which promotion steps and which action words rollout requests can bring about. */
module OtaWords {
  import opened Basics
  import opened Patterns
  import opened OtaRollout
  import opened OtaLineage

  const MAX_BASIS := 10000

  /** The transition table of a rollout: which action leads to which cohort from a parent's state. */
  predicate StepLegal(s: ParentState, action: Action, basis: int) {
    match action
    case Expand => s.basis < basis <= MAX_BASIS && (s.enabled || s.sequence == 0)
    case EmergencyStop => s.enabled && basis == 0
    case Resume => !s.enabled && s.sequence != 0 && 1 <= basis <= MAX_BASIS
  }

  function RequestFor(w: World, parent: Receipt, data: Bytes, s: ParentState, action: Action, basis: int): Request {
    Request(s.id, s.sequence + 1, s.id, s.sequence, w.sha(data), s.enabled, s.basis, parent.release.releaseId,
            parent.release.releaseSequence, parent.release.imageSha, action, basis > 0, basis, parent.retry,
            MIN_TIME, MIN_TIME + 1, w.sha(data))
  }

  lemma StagingIsNamed()
    ensures Identifier("staging")
  {
  }

  /** Valid requests over a parent are exactly the steps of the table. */
  lemma StepsExactly(w: World, parent: Receipt, data: Bytes, s: ParentState, action: Action, basis: int)
    requires StateOf(parent) == Some(s)
    requires Digests(w) && Identifier(parent.release.releaseId) && Digest(parent.release.imageSha)
    requires 1 <= parent.release.releaseSequence <= MAX_SEQUENCE && 60 <= parent.retry <= 86400
    ensures StepLegal(s, action, basis) <==>
              exists q :: RequestValid(q) && MatchesParent(w, q, parent, data) && q.action == action && q.basis == basis
  {
    if StepLegal(s, action, basis) {
      StagingIsNamed();
      var q := RequestFor(w, parent, data, s, action, basis);
      assert RequestValid(q) && MatchesParent(w, q, parent, data);
    }
  }

  // ----- Sequences of steps -----

  type Step = (Action, int)

  /** What a step does to a state, apart from its generation ID. */
  function Moved(s: ParentState, basis: int): ParentState {
    s.(sequence := s.sequence + 1, enabled := basis > 0, basis := basis)
  }

  function Final(s: ParentState, steps: seq<Step>): (t: ParentState)
    requires s.sequence >= 0
    ensures t.sequence == s.sequence + |steps|
  {
    if steps == [] then s else Moved(Final(s, steps[..|steps| - 1]), steps[|steps| - 1].1)
  }

  predicate Playable(s: ParentState, steps: seq<Step>)
    requires s.sequence >= 0
  {
    steps == [] ||
    (var n := |steps| - 1;
     Playable(s, steps[..n]) && StepLegal(Final(s, steps[..n]), steps[n].0, steps[n].1))
  }

  function ActionsOf(steps: seq<Step>): seq<Action> {
    seq(|steps|, i requires 0 <= i < |steps| => steps[i].0)
  }

  const START := ParentState("staging", 0, false, 0)

  lemma {:induction false} PlayOn(s: ParentState, a: seq<Step>, b: seq<Step>)
    requires s.sequence >= 0 && Playable(s, a) && Playable(Final(s, a), b)
    ensures Playable(s, a + b) && Final(s, a + b) == Final(Final(s, a), b)
    decreases |b|
  {
    if b == [] {
      assert a + b == a;
    } else {
      PlayOn(s, a, b[..|b| - 1]);
      assert (a + b)[..|a + b| - 1] == a + b[..|b| - 1];
    }
  }

  lemma ActionsConcat(a: seq<Step>, b: seq<Step>)
    ensures ActionsOf(a + b) == ActionsOf(a) + ActionsOf(b)
  {
  }

  /** `m` expansions by one basis point each. */
  function Climb(from: int, m: nat): seq<Step> {
    seq(m, i => (Expand, from + 1 + i))
  }

  lemma {:induction false} ClimbPlays(s: ParentState, m: nat)
    requires s.sequence >= 0 && s.basis >= 0 && s.basis + m <= MAX_BASIS && (s.enabled || s.sequence == 0)
    ensures Playable(s, Climb(s.basis, m)) && Final(s, Climb(s.basis, m)).basis == s.basis + m
    ensures m > 0 ==> Final(s, Climb(s.basis, m)).enabled
    ensures ActionsOf(Climb(s.basis, m)) == Repeat(Expand, m)
  {
    if m > 0 {
      ClimbPlays(s, m - 1);
      assert Climb(s.basis, m)[..m - 1] == Climb(s.basis, m - 1);
      assert ActionsOf(Climb(s.basis, m)) == ActionsOf(Climb(s.basis, m - 1)) + [Expand];
    }
  }

  predicate StretchesFit(ks: seq<nat>) {
    forall i :: 0 <= i < |ks| ==> ks[i] + 1 <= MAX_BASIS
  }

  lemma HaltPlays(s: ParentState)
    requires s.sequence >= 0 && s.enabled
    ensures var halt := [(EmergencyStop, 0), (Resume, 1)];
            && Playable(s, [(EmergencyStop, 0)]) && Playable(s, halt)
            && Final(s, halt).enabled && Final(s, halt).basis == 1
  {
    var stop, halt: seq<Step> := [(EmergencyStop, 0)], [(EmergencyStop, 0), (Resume, 1)];
    assert stop[..0] == [] && Playable(s, []) && Final(s, []) == s;
    assert Playable(s, stop) && Final(s, stop) == Moved(s, 0);
    assert halt[..1] == stop;
  }

  lemma CyclePlays(s: ParentState, k: nat)
    requires s.sequence >= 0 && s.enabled && k + 1 <= MAX_BASIS
    ensures var cycle := [(EmergencyStop, 0), (Resume, 1)] + Climb(1, k);
            && Playable(s, cycle) && Final(s, cycle).enabled
            && ActionsOf(cycle) == [EmergencyStop, Resume] + Repeat(Expand, k)
  {
    var halt: seq<Step> := [(EmergencyStop, 0), (Resume, 1)];
    HaltPlays(s);
    ClimbPlays(Final(s, halt), k);
    PlayOn(s, halt, Climb(1, k));
    ActionsConcat(halt, Climb(1, k));
    assert ActionsOf(halt) == [EmergencyStop, Resume];
    if k == 0 { assert halt + Climb(1, k) == halt; }
  }

  lemma {:induction false} CyclesPlay(s: ParentState, ks: seq<nat>) returns (steps: seq<Step>)
    requires s.sequence >= 0 && s.enabled && StretchesFit(ks)
    ensures Playable(s, steps) && Final(s, steps).enabled && ActionsOf(steps) == Cycles(ks)
    decreases |ks|
  {
    if ks == [] { return []; }
    var n := |ks| - 1;
    var front := CyclesPlay(s, ks[..n]);
    var cycle := [(EmergencyStop, 0), (Resume, 1)] + Climb(1, ks[n]);
    CyclePlays(Final(s, front), ks[n]);
    PlayOn(s, front, cycle);
    ActionsConcat(front, cycle);
    steps := front + cycle;
    assert Cycles(ks) == Cycles(ks[..n]) + ([EmergencyStop, Resume] + Repeat(Expand, ks[n]));
  }

  /** The steps of a whole word. */
  lemma WordPlays(n: nat, ks: seq<nat>, stopped: bool) returns (steps: seq<Step>)
    requires 1 <= n <= MAX_BASIS && StretchesFit(ks)
    ensures Playable(START, steps) && ActionsOf(steps) == Word(n, ks, stopped)
  {
    ClimbPlays(START, n);
    var climb := Climb(0, n);
    var cycles := CyclesPlay(Final(START, climb), ks);
    PlayOn(START, climb, cycles);
    ActionsConcat(climb, cycles);
    steps := climb + cycles;
    if stopped {
      HaltPlays(Final(START, steps));
      PlayOn(START, steps, [(EmergencyStop, 0)]);
      ActionsConcat(steps, [(EmergencyStop, 0)]);
      steps := steps + [(EmergencyStop, 0)];
    }
  }
}
