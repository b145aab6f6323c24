/**
  * The framing of an event stream: text arrives in chunks and is cut at the leftmost blank-line
  * separators. Bytes are already decoded and within the size bound.
  */
module SseFrames {

  const SEPARATOR := "\n\n"

  // ----- the reference: one decomposition of the whole text -----

  predicate BoundaryAt(text: string, i: nat) {
    i + 1 < |text| && text[i] == '\n' && text[i + 1] == '\n'
  }

  ghost predicate Unbroken(text: string) { forall i :: 0 <= i < |text| ==> !BoundaryAt(text, i) }

  /** The separator right after the frame is the first one: not even the frame's own last line feed
    * together with the separator's first makes an earlier one. */
  ghost predicate Leftmost(frame: string) {
    forall i :: 0 <= i < |frame| ==> !BoundaryAt(frame + SEPARATOR, i)
  }

  function Joined(frames: seq<string>): string {
    if frames == [] then "" else frames[0] + SEPARATOR + Joined(frames[1..])
  }

  /** The greedy decomposition of a text at its leftmost separators. */
  ghost predicate Decomposes(text: string, frames: seq<string>, rest: string) {
    && text == Joined(frames) + rest
    && (forall k :: 0 <= k < |frames| ==> Leftmost(frames[k]))
    && Unbroken(rest)
  }

  // ----- the computation -----

  /** The index of the first separator at or after `from`. */
  function Boundary(text: string, from: nat): (r: int)
    ensures r == -1 ==> forall i :: from <= i < |text| ==> !BoundaryAt(text, i)
    ensures r != -1 ==> from <= r && BoundaryAt(text, r) && forall i :: from <= i < r ==> !BoundaryAt(text, i)
    decreases |text| - from
  {
    if from >= |text| then -1
    else if BoundaryAt(text, from) then from
    else Boundary(text, from + 1)
  }

  function Frames(text: string): seq<string>
    decreases |text|
  {
    var i := Boundary(text, 0);
    if i == -1 then [] else [text[..i]] + Frames(text[i + 2..])
  }

  function Rest(text: string): string
    decreases |text|
  {
    var i := Boundary(text, 0);
    if i == -1 then text else Rest(text[i + 2..])
  }

  lemma BoundaryAfterFrame(frame: string, more: string)
    requires Leftmost(frame)
    ensures var text := frame + SEPARATOR + more;
            Boundary(text, 0) == |frame| && text[..|frame|] == frame && text[|frame| + 2..] == more
  {
    var text := frame + SEPARATOR + more;
    assert BoundaryAt(text, |frame|);
    forall i | 0 <= i < |frame|
      ensures !BoundaryAt(text, i)
    {
      assert !BoundaryAt(frame + SEPARATOR, i);
    }
  }

  lemma FrameIsLeftmost(text: string)
    requires Boundary(text, 0) != -1
    ensures var i := Boundary(text, 0); Leftmost(text[..i]) && text == text[..i] + SEPARATOR + text[i + 2..]
  {
    var i := Boundary(text, 0);
    forall j | 0 <= j < i
      ensures !BoundaryAt(text[..i] + SEPARATOR, j)
    {
      assert !BoundaryAt(text, j);
    }
  }

  lemma {:induction false} FramesDecompose(text: string)
    ensures Decomposes(text, Frames(text), Rest(text))
    decreases |text|
  {
    var i := Boundary(text, 0);
    if i != -1 {
      var frame, more := text[..i], text[i + 2..];
      FrameIsLeftmost(text);
      FramesDecompose(more);
      hide Leftmost, Unbroken;
      assert Frames(text) == [frame] + Frames(more) && Frames(text)[1..] == Frames(more);
      assert frame + SEPARATOR + (Joined(Frames(more)) + Rest(more)) == Joined(Frames(text)) + Rest(text);
    } else {
      assert Joined([]) + text == text;
    }
  }

  /** There is only one such decomposition, and the program computes it. */
  lemma {:induction false} DecompositionIsUnique(text: string, frames: seq<string>, rest: string)
    requires Decomposes(text, frames, rest)
    ensures frames == Frames(text) && rest == Rest(text)
    decreases |frames|
  {
    if frames == [] {
      assert text == rest;
    } else {
      var more := Joined(frames[1..]) + rest;
      assert text == frames[0] + SEPARATOR + more;
      BoundaryAfterFrame(frames[0], more);
      hide Leftmost, Unbroken;
      DecompositionIsUnique(more, frames[1..], rest);
    }
  }

  lemma CutFirst(frame: string, more: string)
    requires Leftmost(frame)
    ensures Frames(frame + SEPARATOR + more) == [frame] + Frames(more)
    ensures Rest(frame + SEPARATOR + more) == Rest(more)
  {
    BoundaryAfterFrame(frame, more);
  }

  lemma Regroup<T>(a: seq<T>, b: seq<T>, c: seq<T>)
    ensures (a + b) + c == a + (b + c)
  {
  }

  lemma CutFirstOfMore(frame: string, tail: string, more: string)
    requires Leftmost(frame)
    ensures Frames(frame + SEPARATOR + tail + more) == [frame] + Frames(tail + more)
    ensures Rest(frame + SEPARATOR + tail + more) == Rest(tail + more)
  {
    Regroup(frame + SEPARATOR, tail, more);
    CutFirst(frame, tail + more);
  }

  /** What is already cut stays cut, whatever text follows. */
  lemma {:induction false} FramesOfMore(text: string, more: string)
    ensures Frames(text + more) == Frames(text) + Frames(Rest(text) + more)
    ensures Rest(text + more) == Rest(Rest(text) + more)
    decreases |text|
  {
    var i := Boundary(text, 0);
    if i == -1 {
      assert Frames(text) == [] && Rest(text) == text;
    } else {
      FrameIsLeftmost(text);
      FramesOfMore(text[i + 2..], more);
      FramesOfMoreStep(text[..i], text[i + 2..], more);
    }
  }

  lemma FramesOfMoreStep(frame: string, tail: string, more: string)
    requires Leftmost(frame)
    requires Frames(tail + more) == Frames(tail) + Frames(Rest(tail) + more) && Rest(tail + more) == Rest(Rest(tail) + more)
    ensures var text := frame + SEPARATOR + tail;
            && Frames(text + more) == Frames(text) + Frames(Rest(text) + more)
            && Rest(text + more) == Rest(Rest(text) + more)
  {
    hide Frames, Rest, Leftmost;
    CutFirst(frame, tail);
    CutFirstOfMore(frame, tail, more);
    Regroup([frame], Frames(tail), Frames(Rest(tail) + more));
  }
}
