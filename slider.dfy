/** The card carousel of the image slider, as values: the six pieces of view
    state, the two drag-gesture transitions that change them, and the render
    values (card offset, opacity and scale; indicator colour and scale; label
    opacity) that the view derives from them on every frame. */
module Slider {

  /** The drag distance, in points, that counts as one full step of the
      interpolation. It is fixed and does not follow the screen width. */
  const ReferenceWidth: real := 300.0

  /** A release strictly beyond this distance, in points, commits a page change. */
  const Threshold: real := 50.0

  function Abs(x: real): (r: real)
    ensures r >= 0.0 && (r == x || r == -x)
  {
    if x < 0.0 then -x else x
  }

  function Min(a: real, b: real): (r: real)
    ensures r <= a && r <= b && (r == a || r == b)
  {
    if a <= b then a else b
  }

  function Max(a: real, b: real): (r: real)
    ensures r >= a && r >= b && (r == a || r == b)
  {
    if a >= b then a else b
  }

  // Swift's generic min and max are applied to indices as well as to
  // scales; Dafny needs a separate pair for int.

  function MinIndex(a: int, b: int): (r: int)
    ensures r <= a && r <= b && (r == a || r == b)
  {
    if a <= b then a else b
  }

  function MaxIndex(a: int, b: int): (r: int)
    ensures r >= a && r >= b && (r == a || r == b)
  {
    if a >= b then a else b
  }

  datatype Colour = Red | Green | Blue

  /** One card of the carousel: its title and its accent colour. */
  datatype Item = Item(content: string, color: Colour)

  /** The three cards the view starts with. */
  const SampleItems: seq<Item> :=
    [Item("First Chart", Red), Item("Second Chart", Green), Item("Third Chart", Blue)]

  /** The five interpolation values: the horizontal drag offset, the opacity
      and scale of the cards that are not current, and the opacity and scale
      of the current card. */
  datatype Look = Look(
    dragOffset: real,
    opacity: real,
    currUpacity: real,
    scaleEffect: real,
    currScaleEffect: real)

  /** The look at rest: before any drag and after every release. */
  const Rest: Look := Look(0.0, 0.5, 1.0, 0.9, 1.0)

  /** The whole view state: the index of the current card and the look. */
  datatype State = State(currentIndex: int, look: Look)

  const Initial: State := State(0, Rest)

  predicate InRange(s: State, count: int)
  {
    0 <= s.currentIndex < count
  }

  /** What holds of every look the carousel can reach: the current card is
      at least half visible and never larger than at rest, the other cards
      are never smaller than at rest, and the two scales always add up to
      their sum at rest, so one grows exactly as much as the other shrinks. */
  predicate Balanced(l: Look)
  {
    0.5 <= l.currUpacity <= 1.0 && 0.5 <= l.opacity &&
    0.9 <= l.scaleEffect && l.currScaleEffect <= 1.0 &&
    l.scaleEffect + l.currScaleEffect == 1.9
  }

  /** The invariant of the view state for a carousel of `count` cards. */
  predicate WellFormed(s: State, count: int)
  {
    InRange(s, count) && Balanced(s.look)
  }

  // ---------------------------------------------------------------------
  // The interpolation formulas of a drag in progress
  // ---------------------------------------------------------------------

  /** How far a drag of `t` points has gone, in units of the reference width. */
  function Progress(t: real): (p: real)
    ensures p >= 0.0
    ensures p == 0.0 <==> t == 0.0
    ensures p <= 1.0 <==> -ReferenceWidth <= t <= ReferenceWidth
  {
    Abs(t / ReferenceWidth)
  }

  /** Scale of the cards that are not current, moving towards min(p + 0.9, 1). */
  function BackgroundScale(p: real): (scale: real)
    ensures 0.0 <= p ==> 0.9 <= scale
  {
    (1.0 - p) * 0.9 + p * Min(p + 0.9, 1.0)
  }

  /** Scale of the current card, moving towards max(0.9, 1 - p). */
  function ActiveScale(p: real): (scale: real)
    ensures 0.0 <= p ==> scale <= 1.0
  {
    (1.0 - p) * 1.0 + p * Max(0.9, 1.0 - p)
  }

  /** Opacity of the cards that are not current. */
  function BackgroundOpacity(p: real): (opacity: real)
    ensures 0.0 <= p ==> 0.5 <= opacity
    ensures p <= 1.0 ==> opacity <= 1.5
  {
    p + 0.5
  }

  /** Opacity of the current card, never below one half. */
  function ActiveOpacity(p: real): (opacity: real)
    ensures 0.5 <= opacity
    ensures 0.0 <= p ==> opacity <= 1.0
  {
    Max(0.5, (1.0 - p) + 0.1 * p)
  }

  /** How far both scales have moved away from rest after progress `p`:
      quadratically up to a tenth of the reference width, linearly beyond. */
  function Bend(p: real): (b: real)
  {
    if p <= 0.1 then p * p else 0.1 * p
  }

  /** The two scale formulas are mirror images around their rest values. */
  lemma ScalesFollowBend(p: real)
    requires p >= 0.0
    ensures BackgroundScale(p) == 0.9 + Bend(p)
    ensures ActiveScale(p) == 1.0 - Bend(p)
  {
  }

  /** The opacity of the current card falls linearly until it reaches one half. */
  lemma ActiveOpacityFalls(p: real)
    requires p >= 0.0
    ensures p <= 5.0 / 9.0 ==> ActiveOpacity(p) == 1.0 - 0.9 * p
    ensures p >= 5.0 / 9.0 ==> ActiveOpacity(p) == 0.5
    ensures 0.5 <= ActiveOpacity(p) <= 1.0
  {
  }

  lemma BendMonotone(p: real, q: real)
    requires 0.0 <= p <= q
    ensures Bend(p) <= Bend(q)
  {
    if q <= 0.1 {
      assert p * p <= p * q <= q * q;
    } else if p <= 0.1 {
      assert p * p <= 0.1 * p <= 0.1 * q;
    }
  }

  /** Within one reference width the scales stay between their two rest
      values; beyond it they overshoot. */
  lemma BendWithinReference(p: real)
    requires p >= 0.0
    ensures 0.0 <= Bend(p)
    ensures Bend(p) <= 0.1 <==> p <= 1.0
  {
    if p <= 0.1 {
      assert p * p <= 0.1 * p;
    }
  }

  /** The look during a drag of `t` points that is not stopped at a boundary. */
  function DragLook(t: real): (l: Look)
    ensures l.dragOffset == t
    ensures l.opacity == Progress(t) + 0.5
    ensures Balanced(l)
  {
    var p := Progress(t);
    ScalesFollowBend(p);
    Look(t, BackgroundOpacity(p), ActiveOpacity(p), BackgroundScale(p), ActiveScale(p))
  }

  /** A drag that has not moved looks exactly like rest. */
  lemma DragLookAtZero()
    ensures DragLook(0.0) == Rest
  {
  }

  /** Dragging left and right by the same distance looks the same, apart from
      the direction of the offset. */
  lemma DragLookSymmetric(t: real)
    ensures DragLook(-t) == DragLook(t).(dragOffset := -t)
  {
  }

  /** The further the drag, the more the current card shrinks and fades and
      the more the other cards grow and show. */
  lemma DragLookMonotone(t: real, u: real)
    requires Abs(t) <= Abs(u)
    ensures DragLook(t).scaleEffect <= DragLook(u).scaleEffect
    ensures DragLook(t).currScaleEffect >= DragLook(u).currScaleEffect
    ensures DragLook(t).opacity <= DragLook(u).opacity
    ensures DragLook(t).currUpacity >= DragLook(u).currUpacity
  {
    var p, q := Progress(t), Progress(u);
    assert p <= q;
    ScalesFollowBend(p);
    ScalesFollowBend(q);
    BendMonotone(p, q);
    ActiveOpacityFalls(p);
    ActiveOpacityFalls(q);
  }

  /** A drag of at most one reference width keeps both scales between 0.9
      and 1 and the background opacity at most 1.5; a longer drag pushes the
      scales past those bounds, because the progress is never clamped. */
  lemma DragLookScaleRange(t: real)
    ensures Abs(t) <= ReferenceWidth ==>
      0.9 <= DragLook(t).scaleEffect <= 1.0 && 0.9 <= DragLook(t).currScaleEffect <= 1.0 &&
      DragLook(t).opacity <= 1.5
    ensures Abs(t) > ReferenceWidth ==>
      DragLook(t).scaleEffect > 1.0 && DragLook(t).currScaleEffect < 0.9
  {
    var p := Progress(t);
    ScalesFollowBend(p);
    BendWithinReference(p);
  }

  // ---------------------------------------------------------------------
  // The two gesture transitions
  // ---------------------------------------------------------------------

  /** A drag that would move before the first card or past the last one: a
      drag right heads for the previous card and a drag left for the next. */
  function AtBoundary(current: int, count: int, t: real): (b: bool)
    ensures 0 <= current < count ==>
      (b <==> (t > 0.0 && current - 1 < 0) || (t < 0.0 && current + 1 >= count))
  {
    (current == 0 && t > 0.0) || (current == count - 1 && t < 0.0)
  }

  /** The state after the drag gesture reports a translation of `t` points. */
  function Changed(s: State, count: int, t: real): (r: State)
    ensures r.currentIndex == s.currentIndex
    ensures AtBoundary(s.currentIndex, count, t) ==> r == s
    ensures !AtBoundary(s.currentIndex, count, t) ==>
      r.look.dragOffset == t && r.look.opacity == Abs(t / ReferenceWidth) + 0.5
    ensures !AtBoundary(s.currentIndex, count, t) ==> Balanced(r.look)
    ensures Balanced(s.look) ==> Balanced(r.look)
  {
    if AtBoundary(s.currentIndex, count, t) then s
    else s.(look := DragLook(t))
  }

  /** The index after a release at translation `t`: one card back for a
      swipe right beyond the threshold, one card on for a swipe left beyond
      it, clamped to the ends of the list. */
  function EndIndex(current: int, count: int, t: real): (i: int)
    requires 0 <= current < count
    ensures 0 <= i < count
    ensures current - 1 <= i <= current + 1
    ensures i < current <==> t > Threshold && current > 0
    ensures i > current <==> t < -Threshold && current < count - 1
  {
    if t > Threshold then MaxIndex(0, current - 1)
    else if t < -Threshold then MinIndex(count - 1, current + 1)
    else current
  }

  /** The state after the drag gesture ends at translation `t`. */
  function Ended(s: State, count: int, t: real): (r: State)
    requires InRange(s, count)
    ensures InRange(r, count)
    ensures r.look == Rest
    ensures r.currentIndex == EndIndex(s.currentIndex, count, t)
  {
    State(EndIndex(s.currentIndex, count, t), Rest)
  }

  lemma ChangedKeepsWellFormed(s: State, count: int, t: real)
    requires WellFormed(s, count)
    ensures WellFormed(Changed(s, count, t), count)
  {
  }

  lemma EndedKeepsWellFormed(s: State, count: int, t: real)
    requires WellFormed(s, count)
    ensures WellFormed(Ended(s, count, t), count)
  {
  }

  /** A release does not depend on the look the drag had reached. */
  lemma EndedForgetsDrag(s: State, s': State, count: int, t: real)
    requires InRange(s, count) && s'.currentIndex == s.currentIndex
    ensures Ended(s', count, t) == Ended(s, count, t)
  {
  }

  /** Releasing again without passing the threshold changes nothing. */
  lemma EndedResetIdempotent(s: State, count: int, t: real, t': real)
    requires InRange(s, count)
    requires -Threshold <= t' <= Threshold
    ensures Ended(Ended(s, count, t), count, t') == Ended(s, count, t)
  {
  }

  // ---------------------------------------------------------------------
  // What the view renders from the state
  // ---------------------------------------------------------------------

  /** Offset, opacity and scale of one card (title and chart alike). */
  datatype CardRender = CardRender(offset: real, opacity: real, scale: real)

  /** Fill colour and scale of one page indicator. */
  datatype IndicatorRender = IndicatorRender(colour: Colour, scale: real)

  /** A card sits at the drag offset exactly when it is the current card
      (on a screen of non-zero width), and is at least half visible in every
      reachable look. */
  function Card(index: int, s: State, width: real): (c: CardRender)
    ensures width != 0.0 ==> (c.offset == s.look.dragOffset <==> index == s.currentIndex)
    ensures Balanced(s.look) ==> 0.5 <= c.opacity
  {
    var active := s.currentIndex == index;
    CardRender(
      (index - s.currentIndex) as real * width + s.look.dragOffset,
      if active then s.look.currUpacity else s.look.opacity,
      if active then s.look.currScaleEffect else s.look.scaleEffect)
  }

  /** An indicator is red for the current card and blue for every other. */
  function Indicator(index: int, s: State): (d: IndicatorRender)
    ensures d.colour == Red <==> index == s.currentIndex
    ensures d.colour == Blue <==> index != s.currentIndex
  {
    var active := s.currentIndex == index;
    IndicatorRender(
      if active then Red else Blue,
      if active then s.look.currScaleEffect else s.look.scaleEffect)
  }

  /** Only the current card's label can be seen. */
  function LabelOpacity(index: int, s: State): (opacity: real)
    ensures index != s.currentIndex ==> opacity == 0.0
    ensures Balanced(s.look) ==> 0.0 <= opacity <= 1.0
  {
    if s.currentIndex == index then s.look.currUpacity else 0.0
  }

  /** The current card follows the finger and wears the current look. */
  lemma CurrentCardFollowsDrag(s: State, width: real)
    ensures Card(s.currentIndex, s, width) ==
      CardRender(s.look.dragOffset, s.look.currUpacity, s.look.currScaleEffect)
  {
  }

  /** Every other card wears the background look, whatever its index, and
      sits a whole number of widths away from the current card. */
  lemma OtherCardsShareBackground(i: int, j: int, s: State, width: real)
    requires i != s.currentIndex && j != s.currentIndex
    ensures Card(i, s, width).opacity == Card(j, s, width).opacity == s.look.opacity
    ensures Card(i, s, width).scale == Card(j, s, width).scale == s.look.scaleEffect
    ensures Card(j, s, width).offset - Card(i, s, width).offset == (j - i) as real * width
  {
  }

  /** Neighbouring cards are one width apart. */
  lemma CardsEvenlySpaced(i: int, s: State, width: real)
    ensures Card(i + 1, s, width).offset == Card(i, s, width).offset + width
  {
  }

  /** On a screen of positive width the cards never overlap or swap places. */
  lemma CardsKeepOrder(i: int, j: int, s: State, width: real)
    requires width > 0.0 && i < j
    ensures Card(i, s, width).offset < Card(j, s, width).offset
  {
    var d := (j - i) as real;
    assert Card(j, s, width).offset - Card(i, s, width).offset == d * width by {
      assert (j - s.currentIndex) as real * width - (i - s.currentIndex) as real * width
        == ((j - s.currentIndex) as real - (i - s.currentIndex) as real) * width;
    }
    assert d * width >= width;
  }

  /** At rest the current card is centred, opaque and full size, and every
      other card is at its own multiple of the width, half transparent and
      at nine tenths of full size. */
  lemma RestLayout(i: int, s: State, width: real)
    requires s.look == Rest
    ensures i == s.currentIndex ==> Card(i, s, width) == CardRender(0.0, 1.0, 1.0)
    ensures i != s.currentIndex ==>
      Card(i, s, width) == CardRender((i - s.currentIndex) as real * width, 0.5, 0.9)
  {
  }

  /** A committed swipe moves every card exactly one width from where it
      rests now; a release within the threshold puts every card back. */
  lemma ReleaseShiftsCards(s: State, count: int, t: real, width: real, i: int)
    requires InRange(s, count)
    ensures t < -Threshold && s.currentIndex < count - 1 ==>
      Card(i, Ended(s, count, t), width).offset == Card(i, s.(look := Rest), width).offset - width
    ensures t > Threshold && s.currentIndex > 0 ==>
      Card(i, Ended(s, count, t), width).offset == Card(i, s.(look := Rest), width).offset + width
    ensures -Threshold <= t <= Threshold ==>
      Card(i, Ended(s, count, t), width) == Card(i, s.(look := Rest), width)
  {
  }

  /** Each indicator is red exactly when its card is current, and is scaled
      like the card it stands for. */
  lemma IndicatorMirrorsCard(i: int, s: State, width: real)
    ensures Indicator(i, s).colour == Red <==> i == s.currentIndex
    ensures i != s.currentIndex ==> Indicator(i, s).colour == Blue
    ensures Indicator(i, s).scale == Card(i, s, width).scale
  {
  }

  /** In every reachable state exactly the current card's label is visible. */
  lemma OnlyCurrentLabelShows(i: int, s: State, count: int)
    requires WellFormed(s, count)
    ensures LabelOpacity(i, s) > 0.0 <==> i == s.currentIndex
    ensures i != s.currentIndex ==> LabelOpacity(i, s) == 0.0
    ensures LabelOpacity(i, s) <= 1.0
  {
  }

  // ---------------------------------------------------------------------
  // Worked examples with three cards
  // ---------------------------------------------------------------------

  /** A 100-point drag to the right from the second card. */
  lemma DragOneThirdExample()
    ensures Changed(State(1, Rest), 3, 100.0) ==
      State(1, Look(100.0, 5.0 / 6.0, 0.7, 14.0 / 15.0, 29.0 / 30.0))
  {
  }

  /** A drag to the right on the first card is ignored. */
  lemma DragBeforeFirstExample(l: Look)
    ensures Changed(State(0, l), 3, 100.0) == State(0, l)
  {
  }

  /** Swiping right past the threshold on the first card stays on it. */
  lemma SwipeBeforeFirstExample(l: Look)
    ensures Ended(State(0, l), 3, 100.0) == State(0, Rest)
  {
  }

  /** Swiping left past the threshold on the second card moves to the last. */
  lemma SwipeToLastExample(l: Look)
    ensures Ended(State(1, l), 3, -60.0) == State(2, Rest)
  {
  }

  /** A short swipe keeps the card. */
  lemma ShortSwipeExample(l: Look)
    ensures Ended(State(1, l), 3, 20.0) == State(1, Rest)
  {
  }
}
