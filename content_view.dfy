/** The slider screen's view state, updated in place by its drag gesture. */
module SliderView {
  import opened Slider

  class ContentView {
    /** The cards; the view never changes the list. */
    const items: seq<Item>
    var currentIndex: int
    var dragOffset: real
    var opacity: real
    var currUpacity: real
    var scaleEffect: real
    var currScaleEffect: real

    /** The view state as a value. */
    function Current(): State
      reads this
    {
      State(currentIndex, Look(dragOffset, opacity, currUpacity, scaleEffect, currScaleEffect))
    }

    ghost predicate Valid()
      reads this
    {
      WellFormed(Current(), |items|)
    }

    /** A carousel over `items`, on the first card, at rest. */
    constructor (items: seq<Item>)
      requires |items| >= 1
      ensures Valid()
      ensures this.items == items && Current() == Initial
    {
      this.items := items;
      currentIndex := 0;
      dragOffset := 0.0;
      opacity := 0.5;
      currUpacity := 1.0;
      scaleEffect := 0.9;
      currScaleEffect := 1.0;
    }

    /** The screen as it appears on launch, with its three chart cards. */
    constructor Sample()
      ensures Valid()
      ensures items == SampleItems && Current() == Initial
    {
      items := SampleItems;
      currentIndex := 0;
      dragOffset := 0.0;
      opacity := 0.5;
      currUpacity := 1.0;
      scaleEffect := 0.9;
      currScaleEffect := 1.0;
    }

    /** The drag gesture reports a horizontal translation of `t` points. */
    method OnChanged(t: real)
      requires Valid()
      modifies this
      ensures Valid()
      ensures Current() == Changed(old(Current()), |items|, t)
    {
      if currentIndex == 0 && t > 0.0 {
        return;
      } else if currentIndex == |items| - 1 && t < 0.0 {
        return;
      }
      var dragPercentage := t / ReferenceWidth;
      var targetScaleEffect := Min(Abs(dragPercentage) + 0.9, 1.0);
      var targetCurrScaleEffect := Max(0.9, 1.0 - Abs(dragPercentage));

      var progress := Abs(dragPercentage);

      scaleEffect := (1.0 - progress) * 0.9 + progress * targetScaleEffect;
      opacity := Abs(dragPercentage) + 0.5;

      currUpacity := Max(0.5, (1.0 - progress) + 0.1 * progress);
      currScaleEffect := (1.0 - progress) * 1.0 + progress * targetCurrScaleEffect;

      dragOffset := t;
      assert progress == Progress(t);
      assert Current().look == DragLook(t);
    }

    /** The drag gesture ends with a horizontal translation of `t` points. */
    method OnEnded(t: real)
      requires Valid()
      modifies this
      ensures Valid()
      ensures Current() == Ended(old(Current()), |items|, t)
    {
      if t > Threshold {
        dragOffset := 0.0;
        opacity := 0.5;
        scaleEffect := 0.9;
        currUpacity := 1.0;
        currScaleEffect := 1.0;
        currentIndex := MaxIndex(0, currentIndex - 1);
      } else if t < -Threshold {
        dragOffset := 0.0;
        opacity := 0.5;
        scaleEffect := 0.9;
        currUpacity := 1.0;
        currScaleEffect := 1.0;
        currentIndex := MinIndex(|items| - 1, currentIndex + 1);
      } else {
        dragOffset := 0.0;
        opacity := 0.5;
        scaleEffect := 0.9;
        currUpacity := 1.0;
        currScaleEffect := 1.0;
      }
    }
  }
}
