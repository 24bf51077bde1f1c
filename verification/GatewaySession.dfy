/**
 The text-to-speech session of `gateway_contract/device_agent_v1.py`: the object with its guarded transitions, and the
 language of call sequences it accepts. Text is its UTF-8 bytes.
 */
module GatewaySession {
  import opened Basics

  type Text = Bytes

  const MAX_REQUEST_ID := 0xFFFF_FFFF
  const MAX_SESSION := 63
  const MAX_TEXT := 512
  const MAX_CODE := 64

  predicate Bounded(t: Text, most: nat) {
    0 < |t| <= most
  }

  predicate InRange(id: int) {
    1 <= id <= MAX_REQUEST_ID
  }

  datatype Reason = BargeIn | Button | NetworkLost | SessionClosed | OtherReason

  datatype Call =
    | Request(session: Text, id: int, text: Text)
    | Abort(session: Text, id: int, reason: Reason)
    | Unsupported(session: Text, id: int)
    | Start(id: int)
    | Sentence(id: int, text: Text)
    | Stop(id: int)
    | Error(id: int, code: Text)

  datatype Phase = Idle | Pending | Playing

  datatype State = State(phase: Phase, id: Option<int>, text: Option<Text>)

  const IDLE := State(Idle, None, None)

  /** The guard of every entry point. */
  predicate Accepts(session: Text, s: State, c: Call) {
    match c
    case Request(from, id, text) => from == session && InRange(id) && Bounded(text, MAX_TEXT) && s.phase == Idle
    case Abort(from, id, reason) => from == session && InRange(id) && s.id == Some(id) && reason != OtherReason
    case Unsupported(_, _) => false
    case Start(id) => InRange(id) && s.id == Some(id) && s.phase == Pending
    case Sentence(id, text) => InRange(id) && s.id == Some(id) && s.phase == Playing && Bounded(text, MAX_TEXT)
    case Stop(id) => InRange(id) && s.id == Some(id) && s.phase != Idle
    case Error(id, code) => InRange(id) && s.id == Some(id) && s.phase != Idle && Bounded(code, MAX_CODE)
  }

  function Next(s: State, c: Call): State {
    match c
    case Request(_, id, text) => State(Pending, Some(id), Some(text))
    case Start(_) => s.(phase := Playing)
    case Sentence(_, _) => s
    case _ => IDLE
  }

  /** The state after a sequence of calls, if all of them are accepted. */
  function After(session: Text, calls: seq<Call>): Option<State> {
    if calls == [] then Some(IDLE)
    else
      var c := calls[|calls| - 1];
      match After(session, calls[..|calls| - 1])
      case None => None
      case Some(s) => if Accepts(session, s, c) then Some(Next(s, c)) else None
  }

  datatype Event = Event(session: Text, kind: string, id: int, detail: Text)

  class Session {
    const session: Text
    var phase: Phase
    var activeId: Option<int>
    var activeText: Option<Text>
    ghost var calls: seq<Call>

    constructor (session: Text)
      requires Bounded(session, MAX_SESSION)
      ensures this.session == session && Valid() && calls == []
    {
      this.session, phase, activeId, activeText, calls := session, Idle, None, None, [];
    }

    function Current(): State
      reads this
    {
      State(phase, activeId, activeText)
    }

    /** The fields are what the accepted calls lead to; an idle session holds nothing, a busy one a request. */
    ghost predicate Valid()
      reads this
    {
      && After(session, calls) == Some(Current())
      && (phase == Idle <==> activeId.None?) && (phase == Idle <==> activeText.None?)
    }

    method Clear()
      modifies this`phase, this`activeId, this`activeText
      ensures Current() == IDLE
    {
      phase, activeId, activeText := Idle, None, None;
    }

    ghost method Record(before: State, c: Call)
      requires After(session, calls) == Some(before) && Accepts(session, before, c)
      modifies this`calls
      ensures calls == old(calls) + [c] && After(session, calls) == Some(Next(before, c))
    {
      AfterSnoc(session, calls, c, before);
      calls := calls + [c];
    }

    method AcceptDeviceMessage(c: Call) returns (ok: bool)
      requires Valid() && (c.Request? || c.Abort? || c.Unsupported?)
      modifies this
      ensures Valid() && ok == Accepts(session, old(Current()), c)
      ensures calls == old(calls) + (if ok then [c] else []) && (!ok ==> Current() == old(Current()))
    {
      ok := false;
      if c.session != session { return; }
      if c.Request? {
        if !InRange(c.id) || !Bounded(c.text, MAX_TEXT) || phase != Idle { return; }
        phase, activeId, activeText := Pending, Some(c.id), Some(c.text);
      } else if c.Abort? {
        if !InRange(c.id) || activeId != Some(c.id) || c.reason == OtherReason { return; }
        Clear();
      } else {
        return;
      }
      ok := true;
      Record(old(Current()), c);
    }

    method TtsStart(id: int) returns (r: Option<Event>)
      requires Valid()
      modifies this
      ensures Valid() && r == (if Accepts(session, old(Current()), Start(id))
                               then Some(Event(session, "start", id, [])) else None)
      ensures calls == old(calls) + (if r.Some? then [Start(id)] else []) && (r.None? ==> Current() == old(Current()))
    {
      if !InRange(id) || activeId != Some(id) || phase != Pending { return None; }
      phase := Playing;
      Record(old(Current()), Start(id));
      r := Some(Event(session, "start", id, []));
    }

    method SentenceStart(id: int, text: Text) returns (r: Option<Event>)
      requires Valid()
      modifies this
      ensures Valid()
      ensures r == (if Accepts(session, old(Current()), Sentence(id, text))
                    then Some(Event(session, "sentence_start", id, text)) else None)
      ensures calls == old(calls) + (if r.Some? then [Sentence(id, text)] else []) && Current() == old(Current())
    {
      if !InRange(id) || activeId != Some(id) || phase != Playing || !Bounded(text, MAX_TEXT) { return None; }
      Record(old(Current()), Sentence(id, text));
      r := Some(Event(session, "sentence_start", id, text));
    }

    method TtsStop(id: int) returns (r: Option<Event>)
      requires Valid()
      modifies this
      ensures Valid() && r == (if Accepts(session, old(Current()), Stop(id)) then Some(Event(session, "stop", id, []))
                               else None)
      ensures calls == old(calls) + (if r.Some? then [Stop(id)] else []) && (r.None? ==> Current() == old(Current()))
    {
      if !InRange(id) || activeId != Some(id) || phase == Idle { return None; }
      Clear();
      Record(old(Current()), Stop(id));
      r := Some(Event(session, "stop", id, []));
    }

    method TtsError(id: int, code: Text) returns (r: Option<Event>)
      requires Valid()
      modifies this
      ensures Valid() && r == (if Accepts(session, old(Current()), Error(id, code))
                               then Some(Event(session, "error", id, code)) else None)
      ensures calls == old(calls) + (if r.Some? then [Error(id, code)] else []) &&
              (r.None? ==> Current() == old(Current()))
    {
      if !InRange(id) || activeId != Some(id) || phase == Idle || !Bounded(code, MAX_CODE) { return None; }
      Clear();
      Record(old(Current()), Error(id, code));
      r := Some(Event(session, "error", id, code));
    }
  }

  // ----- The language of accepted calls -----

  datatype Ending = Unfinished | Stopped | Failed(code: Text) | Aborted(reason: Reason)

  /** One request from beginning to end: optionally a start and then sentences. */
  datatype Block = Block(id: int, text: Text, started: bool, sentences: seq<Text>, ending: Ending)

  function Sentences(id: int, texts: seq<Text>): seq<Call> {
    seq(|texts|, i requires 0 <= i < |texts| => Sentence(id, texts[i]))
  }

  function Opening(session: Text, b: Block): seq<Call> {
    [Request(session, b.id, b.text)] + (if b.started then [Start(b.id)] else [])
  }

  function Closing(session: Text, b: Block): seq<Call> {
    match b.ending
    case Unfinished => []
    case Stopped => [Stop(b.id)]
    case Failed(code) => [Error(b.id, code)]
    case Aborted(reason) => [Abort(session, b.id, reason)]
  }

  function Render(session: Text, b: Block): seq<Call> {
    Opening(session, b) + Sentences(b.id, b.sentences) + Closing(session, b)
  }

  predicate BlockValid(b: Block) {
    && 1 <= b.id <= 4_294_967_295 && 1 <= |b.text| <= 512 && (!b.started ==> b.sentences == [])
    && (forall i :: 0 <= i < |b.sentences| ==> 1 <= |b.sentences[i]| <= 512)
    && (b.ending.Failed? ==> 1 <= |b.ending.code| <= 64)
    && (b.ending.Aborted? ==> b.ending.reason != OtherReason)
  }

  function RenderAll(session: Text, bs: seq<Block>): seq<Call> {
    if bs == [] then [] else RenderAll(session, bs[..|bs| - 1]) + Render(session, bs[|bs| - 1])
  }

  /** Only the last block may be unfinished. */
  predicate BlocksValid(bs: seq<Block>) {
    forall i :: 0 <= i < |bs| ==> BlockValid(bs[i]) && (i < |bs| - 1 ==> !bs[i].ending.Unfinished?)
  }

  function EndOf(b: Block): State {
    if !b.ending.Unfinished? then IDLE else State(if b.started then Playing else Pending, Some(b.id), Some(b.text))
  }

  function EndOfAll(bs: seq<Block>): State {
    if bs == [] then IDLE else EndOf(bs[|bs| - 1])
  }

  lemma AfterSnoc(session: Text, calls: seq<Call>, c: Call, s: State)
    requires After(session, calls) == Some(s) && Accepts(session, s, c)
    ensures After(session, calls + [c]) == Some(Next(s, c))
  {
    assert (calls + [c])[..|calls|] == calls;
  }

  lemma {:induction false} SentencesRun(session: Text, calls: seq<Call>, id: int, texts: seq<Text>, s: State)
    requires After(session, calls) == Some(s) && s.phase == Playing && s.id == Some(id) && InRange(id)
    requires forall i :: 0 <= i < |texts| ==> Bounded(texts[i], MAX_TEXT)
    ensures After(session, calls + Sentences(id, texts)) == Some(s)
  {
    if texts == [] {
      assert calls + Sentences(id, texts) == calls;
    } else {
      var n := |texts| - 1;
      SentencesRun(session, calls, id, texts[..n], s);
      AfterSnoc(session, calls + Sentences(id, texts[..n]), Sentence(id, texts[n]), s);
      assert calls + Sentences(id, texts) == calls + Sentences(id, texts[..n]) + [Sentence(id, texts[n])];
    }
  }

  lemma OpeningRuns(session: Text, calls: seq<Call>, b: Block)
    requires After(session, calls) == Some(IDLE) && BlockValid(b)
    ensures After(session, calls + Opening(session, b)) == Some(EndOf(b.(ending := Unfinished)))
  {
    var request := Request(session, b.id, b.text);
    AfterSnoc(session, calls, request, IDLE);
    if b.started {
      AfterSnoc(session, calls + [request], Start(b.id), Next(IDLE, request));
      assert calls + Opening(session, b) == calls + [request] + [Start(b.id)];
    } else {
      assert calls + Opening(session, b) == calls + [request];
    }
  }

  lemma SpeechRuns(session: Text, calls: seq<Call>, b: Block)
    requires After(session, calls) == Some(IDLE) && BlockValid(b)
    ensures After(session, calls + Opening(session, b) + Sentences(b.id, b.sentences)) ==
            Some(EndOf(b.(ending := Unfinished)))
  {
    OpeningRuns(session, calls, b);
    var opening := calls + Opening(session, b);
    if b.started {
      SentencesRun(session, opening, b.id, b.sentences, EndOf(b.(ending := Unfinished)));
    } else {
      assert opening + Sentences(b.id, b.sentences) == opening;
    }
  }

  lemma ClosingRuns(session: Text, calls: seq<Call>, b: Block)
    requires After(session, calls) == Some(EndOf(b.(ending := Unfinished))) && BlockValid(b)
    ensures After(session, calls + Closing(session, b)) == Some(EndOf(b))
  {
    if b.ending.Unfinished? {
      assert b == b.(ending := Unfinished) && calls + Closing(session, b) == calls;
    } else {
      AfterSnoc(session, calls, Closing(session, b)[0], EndOf(b.(ending := Unfinished)));
    }
  }

  lemma BlockRuns(session: Text, calls: seq<Call>, b: Block)
    requires After(session, calls) == Some(IDLE) && BlockValid(b)
    ensures After(session, calls + Render(session, b)) == Some(EndOf(b))
  {
    var speech := calls + Opening(session, b) + Sentences(b.id, b.sentences);
    SpeechRuns(session, calls, b);
    ClosingRuns(session, speech, b);
    assert calls + Render(session, b) == speech + Closing(session, b);
  }

  lemma {:induction false} BlocksRun(session: Text, bs: seq<Block>)
    requires BlocksValid(bs)
    ensures After(session, RenderAll(session, bs)) == Some(EndOfAll(bs))
  {
    if bs != [] {
      var n := |bs| - 1;
      BlocksRun(session, bs[..n]);
      assert EndOfAll(bs[..n]) == IDLE;
      BlockRuns(session, RenderAll(session, bs[..n]), bs[n]);
    }
  }

  /** A block grown by the call its unfinished state accepts. */
  function Grow(b: Block, c: Call): Block {
    match c
    case Start(_) => b.(started := true)
    case Sentence(_, text) => b.(sentences := b.sentences + [text])
    case Stop(_) => b.(ending := Stopped)
    case Error(_, code) => b.(ending := Failed(code))
    case Abort(_, _, reason) => b.(ending := Aborted(reason))
    case _ => b
  }

  lemma GrownRenders(session: Text, b: Block, c: Call)
    requires BlockValid(b) && b.ending.Unfinished? && Accepts(session, EndOf(b), c)
    ensures BlockValid(Grow(b, c)) && Render(session, Grow(b, c)) == Render(session, b) + [c]
    ensures EndOf(Grow(b, c)) == Next(EndOf(b), c)
  {
    if c.Sentence? {
      assert Sentences(b.id, b.sentences + [c.text]) == Sentences(b.id, b.sentences) + [Sentence(b.id, c.text)];
    }
  }

  /** The blocks of an accepted call sequence. */
  lemma {:induction false} AcceptedSplits(session: Text, calls: seq<Call>) returns (bs: seq<Block>)
    requires After(session, calls).Some?
    ensures BlocksValid(bs) && RenderAll(session, bs) == calls && After(session, calls) == Some(EndOfAll(bs))
    decreases |calls|
  {
    if calls == [] { return []; }
    var n := |calls| - 1;
    var c := calls[n];
    var before := AcceptedSplits(session, calls[..n]);
    assert calls == calls[..n] + [c];
    if c.Request? {
      bs := before + [Block(c.id, c.text, false, [], Unfinished)];
      RequestOpens(session, before, c);
    } else {
      bs := before[..|before| - 1] + [Grow(before[|before| - 1], c)];
      CallGrows(session, before, c);
    }
  }

  lemma RequestOpens(session: Text, bs: seq<Block>, c: Call)
    requires BlocksValid(bs) && c.Request? && Accepts(session, EndOfAll(bs), c)
    ensures var grown := bs + [Block(c.id, c.text, false, [], Unfinished)];
            && BlocksValid(grown) && RenderAll(session, grown) == RenderAll(session, bs) + [c]
            && EndOfAll(grown) == Next(EndOfAll(bs), c)
  {
    var begun := Block(c.id, c.text, false, [], Unfinished);
    var grown := bs + [begun];
    assert grown[..|bs|] == bs && Render(session, begun) == [c];
  }

  lemma CallGrows(session: Text, bs: seq<Block>, c: Call)
    requires BlocksValid(bs) && !c.Request? && Accepts(session, EndOfAll(bs), c)
    ensures bs != []
    ensures var grown := bs[..|bs| - 1] + [Grow(bs[|bs| - 1], c)];
            && BlocksValid(grown) && RenderAll(session, grown) == RenderAll(session, bs) + [c]
            && EndOfAll(grown) == Next(EndOfAll(bs), c)
  {
    var front, last := bs[..|bs| - 1], bs[|bs| - 1];
    GrownRenders(session, last, c);
    LastGrows(session, bs, front, last, Grow(last, c), c);
  }

  lemma LastGrows(session: Text, bs: seq<Block>, front: seq<Block>, last: Block, next: Block, c: Call)
    requires bs == front + [last] && BlocksValid(bs) && BlockValid(next)
    requires Render(session, next) == Render(session, last) + [c]
    ensures BlocksValid(front + [next]) && EndOfAll(front + [next]) == EndOf(next)
    ensures RenderAll(session, front + [next]) == RenderAll(session, bs) + [c]
  {
    var grown := front + [next];
    assert grown[..|front|] == front == bs[..|front|];
    assert forall i :: 0 <= i < |front| ==> grown[i] == bs[i];
  }

  /** A call sequence is accepted exactly when it is a sequence of blocks, the last one possibly unfinished. */
  lemma AcceptedLanguage(session: Text, calls: seq<Call>)
    ensures After(session, calls).Some? <==> exists bs :: BlocksValid(bs) && RenderAll(session, bs) == calls
  {
    if After(session, calls).Some? {
      var bs := AcceptedSplits(session, calls);
    }
    if bs :| BlocksValid(bs) && RenderAll(session, bs) == calls { BlocksRun(session, bs); }
  }
}
