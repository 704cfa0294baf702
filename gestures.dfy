/** Whole drag gestures: the stream of change events the gesture recogniser
    delivers while a finger moves, and the single end event on release. */
module Gestures {
  import opened Slider

  datatype Gesture = Change(translation: real) | End(translation: real)

  function Apply(s: State, count: int, g: Gesture): (r: State)
    requires InRange(s, count)
    ensures InRange(r, count)
  {
    match g
    case Change(t) => Changed(s, count, t)
    case End(t) => Ended(s, count, t)
  }

  /** The state after the events `gs`, delivered in order. */
  function Run(s: State, count: int, gs: seq<Gesture>): (r: State)
    requires InRange(s, count)
    ensures InRange(r, count)
    decreases |gs|
  {
    if gs == [] then s else Run(Apply(s, count, gs[0]), count, gs[1..])
  }

  /** The change events of a drag whose translations were `ts`. */
  function Drag(ts: seq<real>): (gs: seq<Gesture>)
    ensures |gs| == |ts|
    ensures forall k :: 0 <= k < |ts| ==> gs[k] == Change(ts[k])
  {
    if ts == [] then [] else [Change(ts[0])] + Drag(ts[1..])
  }

  /** Any sequence of events keeps the index in range and the look balanced. */
  lemma {:induction false} RunKeepsWellFormed(s: State, count: int, gs: seq<Gesture>)
    requires WellFormed(s, count)
    ensures WellFormed(Run(s, count, gs), count)
    decreases |gs|
  {
    if gs != [] {
      var s' := Apply(s, count, gs[0]);
      assert WellFormed(s', count);
      RunKeepsWellFormed(s', count, gs[1..]);
    }
  }

  lemma {:induction false} RunAppend(s: State, count: int, a: seq<Gesture>, b: seq<Gesture>)
    requires InRange(s, count)
    ensures Run(s, count, a + b) == Run(Run(s, count, a), count, b)
    decreases |a|
  {
    if a != [] {
      assert (a + b)[0] == a[0];
      assert (a + b)[1..] == a[1..] + b;
      RunAppend(Apply(s, count, a[0]), count, a[1..], b);
    } else {
      assert a + b == b;
    }
  }

  /** Change events never move to another card. */
  lemma {:induction false} DragKeepsIndex(s: State, count: int, ts: seq<real>)
    requires InRange(s, count)
    ensures Run(s, count, Drag(ts)).currentIndex == s.currentIndex
    decreases |ts|
  {
    if ts != [] {
      var gs := Drag(ts);
      assert gs[0] == Change(ts[0]);
      assert gs[1..] == Drag(ts[1..]);
      DragKeepsIndex(Apply(s, count, gs[0]), count, ts[1..]);
    }
  }

  /** Whatever happened before, the state after an end event is at rest. */
  lemma EndsAtRest(s: State, count: int, gs: seq<Gesture>, t: real)
    requires InRange(s, count)
    ensures Run(s, count, gs + [End(t)]).look == Rest
  {
    RunAppend(s, count, gs, [End(t)]);
  }

  /** A whole gesture (any drag, then a release at `t`) ends at rest, at most
      one card away, and where it ends depends only on the card it started
      from and on the translation at release. */
  lemma DragSession(s: State, count: int, ts: seq<real>, t: real)
    requires InRange(s, count)
    ensures Run(s, count, Drag(ts) + [End(t)]) == State(EndIndex(s.currentIndex, count, t), Rest)
  {
    RunAppend(s, count, Drag(ts), [End(t)]);
    DragKeepsIndex(s, count, ts);
  }
}
