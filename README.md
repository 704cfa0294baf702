# Image slider carousel

A model of the one piece of logic in the SwiftUI image slider screen:
`ContentView`'s swipeable card carousel.

The view keeps six pieces of state:
- `currentIndex`: the card in the centre.
- `dragOffset`: the horizontal drag offset.
- `opacity` and `scaleEffect`: the opacity and scale of the other cards.
- `currUpacity` and `currScaleEffect`: the opacity and scale of the current card.

A drag gesture changes this state in two ways:
- `onChanged` runs on every movement of the finger. It interpolates the four visual values from the drag progress, which is the absolute value of the translation divided by a fixed 300 points. It does nothing when the drag would go before the first card or past the last one.
- `onEnded` runs on release. It puts every visual value back to rest. If the translation is strictly beyond 50 points, it also moves one card back or one card on, clamped to the ends of the list.

On every frame the view derives render values from this state:
- for each card, an offset, an opacity and a scale;
- for each page indicator, a colour and a scale;
- for each label, an opacity.

The project has three files:
- `slider.dfy` (module `Slider`) holds the state as values. It defines the two transitions as functions (`Changed`, `Ended`) and the render values as functions (`Card`, `Indicator`, `LabelOpacity`), and proves their properties.
- `gestures.dfy` (module `Gestures`) replays whole sequences of gesture events. It proves that the invariant holds after any sequence of events, and that a full gesture (a drag followed by a release) moves at most one card.
- `content_view.dfy` (module `SliderView`) holds the class `ContentView`. The class has the six state fields. Its methods `OnChanged` and `OnEnded` update the fields one assignment at a time, in the same order as the closures do. Each method is proved to leave exactly the state that `Slider.Changed` or `Slider.Ended` describes.

Each `CGFloat`/`Double` is modelled as a Dafny `real`. The number of cards is any count of at least one; the screen itself starts with three cards. The screen width is a parameter `width`.

Two worked cases of the code:
- A drag to the right on the first card is ignored (line 57), because it would go before the first card. `DragBeforeFirstExample` proves this.
- After a 100-point drag from the second card, the current card's scale is 29/30 (lines 64 and 72). `DragOneThirdExample` proves this value.

A property of the code as written: the drag progress is never clamped. After a drag longer than 300 points, the card scales leave the range [0.9, 1] (`DragLookScaleRange`). After a drag longer than 150 points, the background opacity is above 1.

## Model

| member | source | states |
|---|---|---|
| Slider.Progress | ImageSlider/ContentView.swift:62-66 | drag progress is never negative; it is zero exactly when the translation is zero, and at most one exactly when the translation is within ±300 points |
| Slider.ScalesFollowBend | ImageSlider/ContentView.swift:63-72 | the two scale formulas mirror each other around their rest values: the background scale is 0.9 + Bend(p) and the current card's scale is 1 − Bend(p), where Bend is p² up to p = 0.1 and 0.1·p after that |
| Slider.ActiveOpacityFalls | ImageSlider/ContentView.swift:71 | the current card's opacity is 1 − 0.9·p until p = 5/9, then stays at the 0.5 floor; it always lies in [0.5, 1] |
| Slider.BackgroundScale | ImageSlider/ContentView.swift:63-68 | the scale of the cards that are not current is never below its rest value 0.9 for any drag |
| Slider.ActiveScale | ImageSlider/ContentView.swift:64-72 | the scale of the current card is never above its rest value 1 for any drag |
| Slider.BackgroundOpacity | ImageSlider/ContentView.swift:69 | the opacity of the cards that are not current is at least 0.5, and at most 1.5 within one reference width |
| Slider.ActiveOpacity | ImageSlider/ContentView.swift:71 | the opacity of the current card never drops below 0.5, and never exceeds 1 for any drag |
| Slider.DragLook | ImageSlider/ContentView.swift:62-74 | a drag of t points sets the offset to t and the background opacity to \|t/300\| + 0.5; the resulting look is balanced: current-card opacity in [0.5, 1], background scale ≥ 0.9, current-card scale ≤ 1, and the two scales add up to 1.9 |
| Slider.DragLookAtZero | ImageSlider/ContentView.swift:62-74 | a drag of zero points produces exactly the rest look of lines 13-17 |
| Slider.DragLookSymmetric | ImageSlider/ContentView.swift:62-74 | a drag left and a drag right of the same length give the same opacities and scales |
| Slider.DragLookMonotone | ImageSlider/ContentView.swift:62-74 | a longer drag never makes the background smaller or fainter, and never makes the current card larger or more opaque |
| Slider.DragLookScaleRange | ImageSlider/ContentView.swift:62-72 | within 300 points both scales stay in [0.9, 1] and the background opacity stays at most 1.5; beyond 300 points the background scale goes above 1 and the current scale goes below 0.9 |
| Slider.AtBoundary | ImageSlider/ContentView.swift:57-61 | for a valid index, a drag is stopped exactly when it heads for a card that does not exist: right from the first card, or left from the last |
| Slider.Changed | ImageSlider/ContentView.swift:56-75 | a change event never changes the index; at either boundary it changes nothing; otherwise it sets the offset to t and the opacity to \|t/300\| + 0.5, and the look is balanced whatever it was before; it keeps a balanced look balanced |
| Slider.EndIndex | ImageSlider/ContentView.swift:77-106 | the new index stays in [0, count); it moves by at most one; it goes down exactly when t > 50 and the card is not the first; it goes up exactly when t < −50 and the card is not the last |
| Slider.Ended | ImageSlider/ContentView.swift:76-107 | a release keeps the index in range, moves it as EndIndex says, and leaves the rest tuple (0, 0.5, 1, 0.9, 1) |
| Slider.ChangedKeepsWellFormed | ImageSlider/ContentView.swift:56-75 | a change event keeps the index in range and the look balanced |
| Slider.EndedKeepsWellFormed | ImageSlider/ContentView.swift:76-107 | a release keeps the index in range and the look balanced |
| Slider.EndedForgetsDrag | ImageSlider/ContentView.swift:76-107 | the state after a release does not depend on the look the drag had reached |
| Slider.EndedResetIdempotent | ImageSlider/ContentView.swift:98-105 | a second release within ±50 points changes nothing |
| Slider.Card | ImageSlider/ContentView.swift:41-51 | on a screen of non-zero width, a card is drawn at the drag offset exactly when it is the current card; in every reachable look each card is at least half visible |
| Slider.Indicator | ImageSlider/ContentView.swift:115-116 | an indicator is red exactly when its card is current and blue exactly when it is not |
| Slider.LabelOpacity | ImageSlider/ContentView.swift:130 | a label that is not the current card's has opacity 0; in every reachable look every label's opacity lies in [0, 1] |
| Slider.CurrentCardFollowsDrag | ImageSlider/ContentView.swift:41-51 | the current card is drawn at the drag offset, with the current-card opacity and scale |
| Slider.OtherCardsShareBackground | ImageSlider/ContentView.swift:41-51 | every other card has the background opacity and scale; any two of them are (j − i)·width apart |
| Slider.CardsEvenlySpaced | ImageSlider/ContentView.swift:43 | neighbouring cards are exactly one width apart |
| Slider.CardsKeepOrder | ImageSlider/ContentView.swift:43 | on a screen of positive width, a card with a smaller index is always drawn further left |
| Slider.RestLayout | ImageSlider/ContentView.swift:41-51 | at rest, the current card is centred, fully opaque and full size; every other card is at (i − current)·width, with opacity 0.5 and scale 0.9 |
| Slider.ReleaseShiftsCards | ImageSlider/ContentView.swift:76-107 | a committed swipe left moves every card one width left of its resting place; a committed swipe right moves every card one width right; a release within ±50 points returns every card to its resting place |
| Slider.IndicatorMirrorsCard | ImageSlider/ContentView.swift:115-116 | an indicator is red exactly when its card is current and blue otherwise; it has the same scale as its card |
| Slider.OnlyCurrentLabelShows | ImageSlider/ContentView.swift:130 | in every reachable state, a label has positive opacity exactly when its card is current; every other label has opacity 0; no label's opacity exceeds 1 |
| Slider.DragOneThirdExample | ImageSlider/ContentView.swift:62-74 | a 100-point drag on the second of three cards gives offset 100, opacities 5/6 and 0.7, and scales 14/15 and 29/30 |
| Slider.DragBeforeFirstExample | ImageSlider/ContentView.swift:57-58 | dragging right on the first card leaves the state unchanged |
| Slider.SwipeBeforeFirstExample | ImageSlider/ContentView.swift:78-85 | releasing at +100 on the first card stays on the first card, at rest |
| Slider.SwipeToLastExample | ImageSlider/ContentView.swift:88-95 | releasing at −60 on the second of three cards moves to the third card, at rest |
| Slider.ShortSwipeExample | ImageSlider/ContentView.swift:98-105 | releasing at +20 keeps the card and returns to rest |
| Gestures.Run | ImageSlider/ContentView.swift:56-107 | after any sequence of change and end events, the index is still in range |
| Gestures.RunKeepsWellFormed | ImageSlider/ContentView.swift:56-107 | after any sequence of events, the index is in range and the look is balanced |
| Gestures.DragKeepsIndex | ImageSlider/ContentView.swift:56-75 | any number of change events leaves the index where it was |
| Gestures.EndsAtRest | ImageSlider/ContentView.swift:76-107 | whatever came before, the state after an end event is at rest |
| Gestures.DragSession | ImageSlider/ContentView.swift:56-107 | a whole gesture (any drag, then a release at t) ends at rest, on the card EndIndex gives; that card depends only on the starting card and on t |
| SliderView.ContentView.constructor | ImageSlider/ContentView.swift:12-17 | a new view over a non-empty card list starts on the first card, with the rest look |
| SliderView.ContentView.Sample | ImageSlider/ContentView.swift:12-28 | the launch screen has the three chart cards (red, green, blue), starts on the first card, and has the rest look |
| SliderView.ContentView.OnChanged | ImageSlider/ContentView.swift:56-75 | updates the fields in place, leaving exactly the state Slider.Changed gives; it keeps the invariant |
| SliderView.ContentView.OnEnded | ImageSlider/ContentView.swift:76-107 | updates the fields in place, leaving exactly the state Slider.Ended gives; it keeps the invariant |

## Left out

- SwiftUI layout (navigation stack, stacks, fonts, frames, padding, materials, clip shapes, navigation title, preview) is presentation for the host renderer. It has no state logic.
- The `withAnimation` easing and timing is the animation engine's work. Each block is modelled as immediate assignment of its end values.
- `TestView` and its Charts line marks belong to a foreign charting library. The `ToyShape` records are static sample data.
- The `UIWindow.current` / `UIScreen.current` scene lookup and the `cardWidth` property are UIKit runtime queries. The screen width is a parameter of `Card`.
- `Item`'s `id` and `ToyShape`'s `id` come from `UUID()`, a foreign call. `Item` is modelled without its identifier. Nothing in the carousel reads it.
- IEEE rounding of `CGFloat`/`Double` is not modelled. All values are exact reals, and the properties are about the formulas.
- The renderer's own clamping of opacity to [0, 1] is not modelled. The model keeps the raw value the view hands over, which can exceed 1.
- SliderView.ContentView.constructor: requires a non-empty card list. The screen's list is the literal of three cards, so an empty list cannot reach this code, and there is no error path to model.
- Each card attaches its own drag gesture, but every gesture updates the same view state. The model therefore has one `OnChanged` and one `OnEnded`.
