/** Streams that are concatenations of self-delimiting frames, for any way of cutting the first frame off. */
module Framing {
  import opened Basics

  type Cutter<!A, +E> = seq<A> -> Result<seq<A>, E>

  /** The first frame is a nonempty prefix, is itself a frame, and stays the first frame whatever follows it. */
  ghost predicate SelfDelimiting<A(!new), E(!new)>(cut: Cutter<A, E>) {
    && (forall d :: CutsFrame(cut, d))
    && (forall f, rest :: Delimits(cut, f, rest))
  }

  ghost predicate CutsFrame<A, E>(cut: Cutter<A, E>, d: seq<A>) {
    cut(d).Ok? ==>
      0 < |cut(d).value| <= |d| && cut(d).value == d[..|cut(d).value|] && IsFrame(cut, cut(d).value)
  }

  ghost predicate Delimits<A, E>(cut: Cutter<A, E>, f: seq<A>, rest: seq<A>) {
    IsFrame(cut, f) ==> cut(f + rest) == Ok(f)
  }

  ghost predicate IsFrame<A, E>(cut: Cutter<A, E>, f: seq<A>) {
    cut(f) == Ok(f)
  }

  ghost predicate AllFrames<A, E>(cut: Cutter<A, E>, frames: seq<seq<A>>) {
    forall i :: 0 <= i < |frames| ==> IsFrame(cut, frames[i])
  }

  function Frames<A, E>(cut: Cutter<A, E>, data: seq<A>): (r: Result<seq<seq<A>>, E>)
    decreases |data|
  {
    if |data| == 0 then Ok([])
    else
      var f :- cut(data);
      if 0 < |f| <= |data| then
        var rest :- Frames(cut, data[|f|..]);
        Ok([f] + rest)
      else Ok([])
  }

  function Concat<A>(parts: seq<seq<A>>): (r: seq<A>) {
    if |parts| == 0 then [] else Concat(parts[..|parts| - 1]) + parts[|parts| - 1]
  }

  lemma {:induction false} ConcatAppend<A>(a: seq<seq<A>>, b: seq<seq<A>>)
    ensures Concat(a + b) == Concat(a) + Concat(b)
  {
    if |b| == 0 {
      assert a + b == a;
    } else {
      assert (a + b)[..|a + b| - 1] == a + b[..|b| - 1];
      ConcatAppend(a, b[..|b| - 1]);
    }
  }

  function Prepend<A, E>(front: seq<seq<A>>, r: Result<seq<seq<A>>, E>): Result<seq<seq<A>>, E> {
    if r.Ok? then Ok(front + r.value) else r
  }

  lemma FramesCons<A(!new), E(!new)>(cut: Cutter<A, E>, f: seq<A>, rest: seq<A>)
    requires SelfDelimiting(cut) && IsFrame(cut, f)
    ensures Frames(cut, f + rest) == Prepend([f], Frames(cut, rest))
  {
    assert Delimits(cut, f, rest) && CutsFrame(cut, f);
    assert (f + rest)[|f|..] == rest;
  }

  lemma Regroup<A>(a: seq<A>, b: seq<A>, c: seq<A>)
    ensures (a + b) + c == a + (b + c)
  {
  }

  lemma PrependTwice<A, E>(front: seq<seq<A>>, last: seq<A>, r: Result<seq<seq<A>>, E>)
    ensures Prepend(front, Prepend([last], r)) == Prepend(front + [last], r)
  {
    if r.Ok? { Regroup(front, [last], r.value); }
  }

  /** Accepted frames in front of a stream are the first frames returned. */
  lemma {:induction false} FramesAppend<A(!new), E(!new)>(cut: Cutter<A, E>, frames: seq<seq<A>>, rest: seq<A>)
    requires SelfDelimiting(cut) && AllFrames(cut, frames)
    ensures Frames(cut, Concat(frames) + rest) == Prepend(frames, Frames(cut, rest))
  {
    var tail := Frames(cut, rest);
    if |frames| == 0 {
      assert Concat(frames) + rest == rest;
      assert tail.Ok? ==> frames + tail.value == tail.value;
    } else {
      var front, last := frames[..|frames| - 1], frames[|frames| - 1];
      FramesCons(cut, last, rest);
      FramesAppend(cut, front, last + rest);
      Regroup(Concat(front), last, rest);
      PrependTwice(front, last, tail);
      assert front + [last] == frames;
    }
  }

  /** A stream is split into these frames exactly when it is their concatenation. */
  lemma FramingIsUnique<A(!new), E(!new)>(cut: Cutter<A, E>, data: seq<A>, frames: seq<seq<A>>)
    requires SelfDelimiting(cut)
    ensures Frames(cut, data) == Ok(frames) <==> AllFrames(cut, frames) && data == Concat(frames)
  {
    if AllFrames(cut, frames) && data == Concat(frames) {
      FramesAppend(cut, frames, []);
      assert data + [] == data && frames + [] == frames;
    }
    if Frames(cut, data) == Ok(frames) {
      FramesRecompose(cut, data);
    }
  }

  lemma {:induction false} FramesRecompose<A(!new), E(!new)>(cut: Cutter<A, E>, data: seq<A>)
    requires SelfDelimiting(cut) && Frames(cut, data).Ok?
    ensures AllFrames(cut, Frames(cut, data).value) && data == Concat(Frames(cut, data).value)
    decreases |data|
  {
    if |data| > 0 {
      assert CutsFrame(cut, data);
      var f := cut(data).value;
      FramesRecompose(cut, data[|f|..]);
      var rest := Frames(cut, data[|f|..]).value;
      ConcatAppend([f], rest);
      assert [f][..0] == [];
      assert data == f + data[|f|..];
    }
  }
}
