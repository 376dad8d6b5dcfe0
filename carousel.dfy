/** The testimonial carousel (src/components/TestimonialsCarousel.tsx): the
    slide index and direction, the drag gesture kept in two refs, the dot
    buttons, the slide-in/slide-out offsets and the star row. */
module Carousel {
  import opened Text

  /** The ratings of the five testimonials, in display order. */
  const Ratings: seq<int> := [5, 5, 4, 5, 5]

  /** `testimonials.length` */
  const Count := 5

  /** The drag distance a gesture must exceed to change slides. */
  const SwipeThreshold: real := 50.0

  /** The horizontal offset a slide enters from or leaves to. */
  const Offset := 1000

  // ---------------------------------------------------------------- the index

  /** The index `nextSlide` moves to. */
  function Next(i: int): (r: int)
    requires 0 <= i < Count
    ensures 0 <= r < Count
    ensures r == (i + 1) % Count
  {
    if i == Count - 1 then 0 else i + 1
  }

  /** The index `prevSlide` moves to. */
  function Prev(i: int): (r: int)
    requires 0 <= i < Count
    ensures 0 <= r < Count
    ensures r == (i - 1 + Count) % Count
  {
    if i == 0 then Count - 1 else i - 1
  }

  /** Going back undoes going forward, and the other way round. */
  lemma PrevUndoesNext(i: int)
    requires 0 <= i < Count
    ensures Prev(Next(i)) == i
    ensures Next(Prev(i)) == i
  {
  }

  /** The index after `k` presses of the next button. */
  function Advance(i: int, k: nat): (r: int)
    requires 0 <= i < Count
    ensures 0 <= r < Count
  {
    if k == 0 then i else Next(Advance(i, k - 1))
  }

  /** `k` steps forward land on `(i + k) mod 5`; in particular five steps
      come back to the start. */
  lemma {:induction false} AdvanceIsModular(i: int, k: nat)
    requires 0 <= i < Count
    ensures Advance(i, k) == (i + k) % Count
  {
    if k > 0 {
      AdvanceIsModular(i, k - 1);
    }
  }

  // ---------------------------------------------------------------- the state

  /** The state the handlers touch: `currentIndex`, `direction`, and the
      refs `dragStartX` and `dragDistance`. */
  datatype View = View(index: int, direction: int, dragStartX: real, dragDistance: real)
  {
    predicate Valid() {
      0 <= index < Count && -1 <= direction <= 1
    }
  }

  const Initial := View(0, 0, 0.0, 0.0)

  /** `nextSlide` on the state. */
  function Forward(v: View): (w: View)
    requires v.Valid()
    ensures w.Valid() && w.index == (v.index + 1) % Count && w.direction == 1
    ensures w.dragStartX == v.dragStartX && w.dragDistance == v.dragDistance
  {
    v.(index := Next(v.index), direction := 1)
  }

  /** `prevSlide` on the state. */
  function Backward(v: View): (w: View)
    requires v.Valid()
    ensures w.Valid() && w.index == (v.index - 1 + Count) % Count && w.direction == -1
    ensures w.dragStartX == v.dragStartX && w.dragDistance == v.dragDistance
  {
    v.(index := Prev(v.index), direction := -1)
  }

  /** `handleDragStart`: remember where the cursor went down. */
  function DragStart(v: View, clientX: real): (w: View)
    ensures w.index == v.index && w.direction == v.direction
    ensures w.dragStartX == clientX && w.dragDistance == 0.0
  {
    v.(dragStartX := clientX, dragDistance := 0.0)
  }

  /** `handleDragMove`: the distance from the remembered start. The ref
      holds a number from the first render on, so its `null` guard never
      returns early. */
  function DragMove(v: View, clientX: real): (w: View)
    ensures w.index == v.index && w.direction == v.direction && w.dragStartX == v.dragStartX
    ensures w.dragStartX + w.dragDistance == clientX
  {
    v.(dragDistance := clientX - v.dragStartX)
  }

  function Abs(x: real): real {
    if x < 0.0 then -x else x
  }

  /** `handleDragEnd`: a swipe longer than the threshold goes back (to the
      right) or forward (to the left); the refs are zeroed either way. */
  function DragEnd(v: View): (w: View)
    requires v.Valid()
    ensures w.Valid()
    ensures v.dragDistance > SwipeThreshold ==> w.index == Prev(v.index) && w.direction == -1
    ensures v.dragDistance < -SwipeThreshold ==> w.index == Next(v.index) && w.direction == 1
    ensures Abs(v.dragDistance) <= SwipeThreshold ==> w.index == v.index && w.direction == v.direction
    ensures w.dragStartX == 0.0 && w.dragDistance == 0.0
  {
    var moved :=
      if Abs(v.dragDistance) > SwipeThreshold then
        if v.dragDistance > 0.0 then Backward(v) else Forward(v)
      else v;
    moved.(dragStartX := 0.0, dragDistance := 0.0)
  }

  /** The click handler of dot `dot`. */
  function GoTo(v: View, dot: int): (w: View)
    requires v.Valid() && 0 <= dot < Count
    ensures w.Valid() && w.index == dot
    ensures w.direction == 1 <==> dot > v.index
    ensures w.direction == -1 <==> dot <= v.index
    ensures w.dragStartX == v.dragStartX && w.dragDistance == v.dragDistance
  {
    v.(direction := if dot > v.index then 1 else -1, index := dot)
  }

  // ---------------------------------------------------------------- the mounted component

  class TestimonialsCarousel {
    var currentIndex: int
    var direction: int
    var dragStartX: real
    var dragDistance: real

    function State(): View
      reads this
    {
      View(currentIndex, direction, dragStartX, dragDistance)
    }

    ghost predicate Valid()
      reads this
    {
      State().Valid()
    }

    constructor ()
      ensures Valid() && State() == Initial
    {
      currentIndex := 0;
      direction := 0;
      dragStartX := 0.0;
      dragDistance := 0.0;
    }

    /** `nextSlide`, also what each autoplay tick does. */
    method NextSlide()
      requires Valid()
      modifies this`currentIndex, this`direction
      ensures Valid() && State() == Forward(old(State()))
    {
      direction := 1;
      currentIndex := if currentIndex == Count - 1 then 0 else currentIndex + 1;
    }

    method PrevSlide()
      requires Valid()
      modifies this`currentIndex, this`direction
      ensures Valid() && State() == Backward(old(State()))
    {
      direction := -1;
      currentIndex := if currentIndex == 0 then Count - 1 else currentIndex - 1;
    }

    method HandleDragStart(clientX: real)
      requires Valid()
      modifies this`dragStartX, this`dragDistance
      ensures Valid() && State() == DragStart(old(State()), clientX)
    {
      dragStartX := clientX;
      dragDistance := 0.0;
    }

    method HandleDragMove(clientX: real)
      requires Valid()
      modifies this`dragDistance
      ensures Valid() && State() == DragMove(old(State()), clientX)
    {
      dragDistance := clientX - dragStartX;
    }

    method HandleDragEnd()
      requires Valid()
      modifies this
      ensures Valid() && State() == DragEnd(old(State()))
    {
      if Abs(dragDistance) > SwipeThreshold {
        if dragDistance > 0.0 {
          PrevSlide();
        } else {
          NextSlide();
        }
      }
      dragStartX := 0.0;
      dragDistance := 0.0;
    }

    method HandleDotClick(dot: int)
      requires Valid() && 0 <= dot < Count
      modifies this`currentIndex, this`direction
      ensures Valid() && State() == GoTo(old(State()), dot)
    {
      direction := if dot > currentIndex then 1 else -1;
      currentIndex := dot;
    }
  }

  // ---------------------------------------------------------------- hovering is read as a swipe

  /** As written: moving the mouse over the card without pressing, then
      leaving it, is measured from the zeroed start and, past the
      threshold, turns back one slide. */
  lemma HoverThenLeaveGoesBack(v: View, clientX: real)
    requires v.Valid() && v.dragStartX == 0.0
    requires clientX > SwipeThreshold
    ensures DragEnd(DragMove(v, clientX)).index == Prev(v.index)
    ensures DragEnd(DragMove(Initial, 300.0)).index == 4
  {
  }

  /** The drag refs as evidently intended: no start while no button is
      down. */
  datatype Gesture = Gesture(start: Option<real>, distance: real)

  const Idle := Gesture(None, 0.0)

  function PressedDragMove(g: Gesture, clientX: real): (h: Gesture)
    ensures h.start == g.start
    ensures g.start.None? ==> h == g
    ensures g.start.Some? ==> h.distance == clientX - g.start.value
  {
    if g.start.None? then g else g.(distance := clientX - g.start.value)
  }

  /** The intended `handleDragEnd`: the same swipe rule, and the gesture
      returns to idle. */
  function PressedDragEnd(v: View, g: Gesture): (r: (View, Gesture))
    requires v.Valid()
    ensures r.0.Valid() && r.1 == Idle
    ensures r.0.index == DragEnd(v.(dragDistance := g.distance)).index
    ensures r.0.direction == DragEnd(v.(dragDistance := g.distance)).direction
  {
    var moved :=
      if Abs(g.distance) > SwipeThreshold then
        if g.distance > 0.0 then Backward(v) else Forward(v)
      else v;
    (moved, Idle)
  }

  /** Corrected: without a press, no sequence of moves followed by leaving
      the card changes the slide. */
  lemma {:induction false} PressedDragOnly(v: View, moves: seq<real>)
    requires v.Valid()
    ensures PressedDragEnd(v, MoveAll(Idle, moves)).0 == v
  {
    IdleStaysIdle(moves);
  }

  function MoveAll(g: Gesture, moves: seq<real>): Gesture
    decreases |moves|
  {
    if moves == [] then g else MoveAll(PressedDragMove(g, moves[0]), moves[1..])
  }

  lemma {:induction false} IdleStaysIdle(moves: seq<real>)
    ensures MoveAll(Idle, moves) == Idle
  {
    if moves != [] {
      IdleStaysIdle(moves[1..]);
    }
  }

  /** With a press, the corrected gesture swipes exactly as the written
      one does. */
  lemma PressedDragAgrees(v: View, down: real, up: real)
    requires v.Valid()
    ensures PressedDragEnd(v, PressedDragMove(Gesture(Some(down), 0.0), up)).0.index ==
      DragEnd(DragMove(DragStart(v, down), up)).index
  {
  }

  // ---------------------------------------------------------------- variants and stars

  /** `variants.enter(direction).x` */
  function EnterOffset(direction: int): (x: int)
    ensures x == Offset <==> direction > 0
    ensures x == Offset || x == -Offset
  {
    if direction > 0 then Offset else -Offset
  }

  /** `variants.exit(direction).x` */
  function ExitOffset(direction: int): (x: int)
    ensures x == Offset <==> direction < 0
    ensures x == Offset || x == -Offset
  {
    if direction < 0 then Offset else -Offset
  }

  /** After a move the new slide comes in from the side the old one leaves
      away from; before the first move both use the left. */
  lemma SlidesMoveTogether(direction: int)
    ensures direction != 0 ==> ExitOffset(direction) == -EnterOffset(direction)
    ensures direction == 0 ==> EnterOffset(direction) == ExitOffset(direction) == -Offset
  {
  }

  /** The star row: star `i` of five is filled when `i < rating`. */
  function Stars(rating: int): (s: seq<bool>)
    ensures |s| == 5
    ensures forall i :: 0 <= i < 5 ==> (s[i] <==> i < rating)
  {
    seq(5, i => i < rating)
  }

  function Filled(s: seq<bool>): nat {
    if s == [] then 0 else (if s[0] then 1 else 0) + Filled(s[1..])
  }

  /** A prefix of trues followed by falses has as many filled stars as its
      prefix is long. */
  lemma {:induction false} FilledPrefix(s: seq<bool>, k: nat)
    requires k <= |s|
    requires forall i :: 0 <= i < |s| ==> (s[i] <==> i < k)
    ensures Filled(s) == k
    decreases |s|
  {
    if s != [] {
      var t := s[1..];
      if k > 0 {
        assert forall i :: 0 <= i < |t| ==> (t[i] <==> i < k - 1) by {
          forall i | 0 <= i < |t| ensures t[i] <==> i < k - 1 {
            assert t[i] == s[i + 1];
          }
        }
        FilledPrefix(t, k - 1);
      } else {
        assert forall i :: 0 <= i < |t| ==> !t[i] by {
          forall i | 0 <= i < |t| ensures !t[i] {
            assert t[i] == s[i + 1];
          }
        }
        FilledPrefix(t, 0);
      }
    }
  }

  /** Exactly `rating` stars are filled, for ratings from 0 to 5, and so
      for every testimonial. */
  lemma StarsShowRating(rating: int)
    requires 0 <= rating <= 5
    ensures Filled(Stars(rating)) == rating
  {
    FilledPrefix(Stars(rating), rating);
  }

  lemma EveryTestimonialStars()
    ensures forall k :: 0 <= k < |Ratings| ==> Filled(Stars(Ratings[k])) == Ratings[k]
  {
    forall k | 0 <= k < |Ratings|
      ensures Filled(Stars(Ratings[k])) == Ratings[k]
    {
      StarsShowRating(Ratings[k]);
    }
  }
}
