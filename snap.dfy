/** The `animateOnScroll` snap machine: key and wheel input pick a direction,
    the nearest slide is re-found, and an eased scroll runs to the previous or
    next anchor, or to the top or bottom of the document. */
module Snap {
  import opened Easing

  datatype Direction = Up | Down | None

  /** The events `handleSlideEvents` is registered for: `keydown` (key code
      `which`), Safari's `mousewheel` (`wheelDeltaY`, positive upwards) and
      `wheel` (`deltaY`, positive downwards); anything else carries no input. */
  datatype InputEvent = KeyDown(which: int) | MouseWheel(wheelDeltaY: real) | Wheel(deltaY: real) | OtherEvent

  const KeyPageUp: int := 33
  const KeyPageDown: int := 34
  const KeyArrowUp: int := 38
  const KeyArrowDown: int := 40

  /** Arrow and page keys, and the sign of the wheel delta, give the direction. */
  function Classify(ev: InputEvent): (d: Direction)
    ensures d == Up <==>
              (ev.KeyDown? && (ev.which == KeyArrowUp || ev.which == KeyPageUp)) ||
              (ev.MouseWheel? && ev.wheelDeltaY > 0.0) ||
              (ev.Wheel? && ev.deltaY < 0.0)
    ensures d == Down <==>
              (ev.KeyDown? && (ev.which == KeyArrowDown || ev.which == KeyPageDown)) ||
              (ev.MouseWheel? && ev.wheelDeltaY < 0.0) ||
              (ev.Wheel? && ev.deltaY > 0.0)
  {
    match ev
    case KeyDown(which) =>
      if which == KeyArrowUp || which == KeyPageUp then Up
      else if which == KeyArrowDown || which == KeyPageDown then Down
      else None
    case MouseWheel(wheelDeltaY) =>
      if wheelDeltaY > 0.0 then Up else if wheelDeltaY < 0.0 then Down else None
    case Wheel(deltaY) =>
      if deltaY < 0.0 then Up else if deltaY > 0.0 then Down else None
    case OtherEvent => None
  }

  /** Whether the browser's own scrolling is cancelled: for every wheel event,
      and for a key only when it is one of the four direction keys. */
  function PreventsDefault(ev: InputEvent): (b: bool)
    ensures b <==> ev.MouseWheel? || ev.Wheel? || (ev.KeyDown? && Classify(ev) != None)
  {
    match ev
    case KeyDown(which) =>
      which == KeyArrowUp || which == KeyPageUp || which == KeyArrowDown || which == KeyPageDown
    case MouseWheel(_) => true
    case Wheel(_) => true
    case OtherEvent => false
  }

  function Opposite(d: Direction): Direction
  {
    match d
    case Up => Down
    case Down => Up
    case None => None
  }

  /** Safari's `wheelDeltaY` has the opposite sign convention to `deltaY`, and
      reversing a wheel turn reverses the direction. */
  lemma WheelConventions(delta: real)
    ensures Classify(MouseWheel(delta)) == Classify(Wheel(-delta))
    ensures Classify(Wheel(-delta)) == Opposite(Classify(Wheel(delta)))
    ensures Classify(MouseWheel(-delta)) == Opposite(Classify(MouseWheel(delta)))
  {
  }

  /** `Math.abs(offsetTop - pageYOffset)`. */
  function Distance(anchor: real, offset: real): (d: real)
    ensures d >= 0.0 && (d == anchor - offset || d == offset - anchor)
  {
    if anchor >= offset then anchor - offset else offset - anchor
  }

  /** Index `k` (0-based) is the nearest anchor, and the first of the nearest. */
  ghost predicate IsNearest(anchors: seq<real>, offset: real, k: int)
  {
    0 <= k < |anchors| &&
    (forall j :: 0 <= j < |anchors| ==> Distance(anchors[k], offset) <= Distance(anchors[j], offset)) &&
    (forall j :: 0 <= j < k ==> Distance(anchors[j], offset) > Distance(anchors[k], offset))
  }

  /** At most one index is the first nearest. */
  lemma NearestUnique(anchors: seq<real>, offset: real, k1: int, k2: int)
    requires IsNearest(anchors, offset, k1) && IsNearest(anchors, offset, k2)
    ensures k1 == k2
  {
    var d1, d2 := Distance(anchors[k1], offset), Distance(anchors[k2], offset);
    assert d1 <= d2 && d2 <= d1;
    assert k1 < k2 ==> d1 > d2;
    assert k2 < k1 ==> d2 > d1;
  }

  /** The first nearest anchor, found by extending a prefix one anchor at a
      time: a later anchor replaces the best one only when strictly nearer. */
  function NearestIndex(anchors: seq<real>, offset: real): (k: nat)
    requires |anchors| > 0
    ensures IsNearest(anchors, offset, k)
    decreases |anchors|
  {
    var n := |anchors|;
    if n == 1 then 0
    else
      var prefix := anchors[..n - 1];
      var k := NearestIndex(prefix, offset);
      assert forall j :: 0 <= j < n - 1 ==> prefix[j] == anchors[j];
      if Distance(anchors[n - 1], offset) < Distance(anchors[k], offset) then n - 1 else k
  }

  /** The 1-based nearest slide; with no anchors the null index plus one is 1. */
  function NearestSlide(anchors: seq<real>, offset: real): (slide: int)
    ensures 1 <= slide
    ensures |anchors| > 0 ==> slide <= |anchors| && IsNearest(anchors, offset, slide - 1)
  {
    if |anchors| == 0 then 1 else NearestIndex(anchors, offset) + 1
  }

  /** An anchor at exactly the scroll offset wins, the first one if several do;
      otherwise the nearest wins, ties going to the lowest index. */
  lemma NearestSlideExactMatch(anchors: seq<real>, offset: real, j: int)
    requires 0 <= j < |anchors| && anchors[j] == offset
    ensures anchors[NearestSlide(anchors, offset) - 1] == offset
    ensures forall i :: 0 <= i < NearestSlide(anchors, offset) - 1 ==> anchors[i] != offset
  {
    var k := NearestSlide(anchors, offset) - 1;
    assert Distance(anchors[j], offset) == 0.0;
    assert Distance(anchors[k], offset) <= 0.0;
  }

  /** `findNearestSlide`: scan the anchors, stop at a zero distance, otherwise
      keep the first strictly nearest. */
  method FindNearestSlide(anchors: seq<real>, offset: real) returns (slide: int)
    ensures slide == NearestSlide(anchors, offset)
  {
    var closestIndex: nat := 0;
    var closestDistance: real := 0.0;
    var hasClosest := false;
    var i := 0;
    while i < |anchors|
      invariant 0 <= i <= |anchors|
      invariant hasClosest == (i > 0)
      invariant !hasClosest ==> closestIndex == 0
      invariant hasClosest ==> NearestAmongFirst(anchors, offset, closestIndex, i)
      invariant hasClosest ==> closestDistance == Distance(anchors[closestIndex], offset)
      invariant forall j :: 0 <= j < i ==> Distance(anchors[j], offset) != 0.0
    {
      var distance := Distance(anchors[i], offset);
      if distance == 0.0 {
        ExactIsNearest(anchors, offset, i);
        return i + 1;
      } else if !hasClosest || distance < closestDistance {
        closestDistance := distance;
        closestIndex := i;
      }
      hasClosest := true;
      i := i + 1;
    }
    if hasClosest {
      NearestUnique(anchors, offset, closestIndex, NearestIndex(anchors, offset));
    }
    slide := closestIndex + 1;
  }

  /** Index `k` is the first nearest among the first `n` anchors. */
  ghost predicate NearestAmongFirst(anchors: seq<real>, offset: real, k: int, n: int)
  {
    0 <= k < n <= |anchors| &&
    (forall j :: 0 <= j < n ==> Distance(anchors[k], offset) <= Distance(anchors[j], offset)) &&
    (forall j :: 0 <= j < k ==> Distance(anchors[j], offset) > Distance(anchors[k], offset))
  }

  /** The first anchor at zero distance is the first nearest. */
  lemma ExactIsNearest(anchors: seq<real>, offset: real, i: int)
    requires 0 <= i < |anchors| && Distance(anchors[i], offset) == 0.0
    requires forall j :: 0 <= j < i ==> Distance(anchors[j], offset) != 0.0
    ensures NearestIndex(anchors, offset) == i
  {
    forall j | 0 <= j < |anchors|
      ensures Distance(anchors[i], offset) <= Distance(anchors[j], offset)
    {
    }
    NearestUnique(anchors, offset, i, NearestIndex(anchors, offset));
  }

  /** Where a transition goes: an absolute scroll offset, or a 1-based slide. */
  datatype Target = Pixel(y: real) | Slide(num: int)

  /** The outcome of one input: the new current slide, and whether a transition
      starts and to where. */
  datatype Decision = Stay(slide: int) | Go(slide: int, target: Target)

  /** The direction policy of `handleSlideEvents`, from the re-found nearest
      slide. Up at the first slide goes to the document top, down at the last
      slide goes to the document bottom; otherwise the slide index steps by one
      within [1, count] and the scroll goes to that slide's anchor. */
  function Decide(dir: Direction, animating: bool, nearest: int, count: int,
                  offset: real, maxScroll: real): (d: Decision)
    requires 1 <= nearest <= count
    ensures 1 <= d.slide <= count
    ensures d.Go? <==> !dir.None? && !animating
    ensures d.Stay? ==> d.slide == nearest
    ensures dir == Up ==> nearest - 1 <= d.slide <= nearest
    ensures dir == Down ==> nearest <= d.slide <= nearest + 1
    ensures d.Go? && d.target.Slide? ==> d.target.num == d.slide
    ensures d.Go? && d.target.Pixel? ==> d.slide == nearest
    ensures d.Go? && dir == Up ==>
              (d.target.Pixel? <==> nearest == 1 && offset >= 0.0) &&
              (d.target.Pixel? ==> d.target.y == 0.0)
    ensures d.Go? && dir == Down ==>
              (d.target.Pixel? <==> nearest == count && offset <= maxScroll) &&
              (d.target.Pixel? ==> d.target.y == maxScroll)
  {
    if dir == Up && !animating then
      if nearest == 1 && offset >= 0.0 then Go(nearest, Pixel(0.0))
      else
        var slide := if nearest - 1 < 1 then 1 else nearest - 1;
        Go(slide, Slide(slide))
    else if dir == Down && !animating then
      if nearest == count && offset <= maxScroll then Go(nearest, Pixel(maxScroll))
      else
        var slide := if nearest + 1 > count then count else nearest + 1;
        Go(slide, Slide(slide))
    else Stay(nearest)
  }

  /** Repeated "down" inputs from any slide reach the last slide within
      `count - nearest` steps, and "up" inputs the first within `nearest - 1`. */
  lemma StepsReachBoundary(nearest: int, count: int, offset: real, maxScroll: real)
    requires 1 <= nearest <= count
    ensures nearest < count ==> Decide(Down, false, nearest, count, offset, maxScroll).slide == nearest + 1
    ensures nearest > 1 ==> Decide(Up, false, nearest, count, offset, maxScroll).slide == nearest - 1
  {
  }

  /** Frame count of a transition: 60 on the fast tier, 40 otherwise. */
  function FramesFor(fastTier: bool): int
  {
    if fastTier then 60 else 40
  }

  /** The scroll offset a target stands for. */
  function TargetOffset(target: Target, anchors: seq<real>): real
    requires target.Slide? ==> 1 <= target.num <= |anchors|
  {
    match target
    case Pixel(y) => y
    case Slide(num) => anchors[num - 1]
  }

  /** Each offset of `written` is the eased value of its iteration in a run of
      `frames` frames from `start` by `change`. */
  ghost predicate EasedRun(written: seq<real>, start: real, change: real, frames: int)
  {
    forall k :: 0 <= k < |written| ==>
      frames != 0 && written[k] == EaseInOutQuart(k as real, start, change, frames as real)
  }

  /** The snap state of one Parallax instance. `scrollY` is the window's scroll
      offset, which the transition writes; `written` records the offsets written
      in the current run. */
  class SnapScroller {
    const slideCount: nat
    const fastTier: bool
    var currentSlide: int
    var animating: bool
    var preventAnimateOnScroll: bool
    var iteration: int
    var startValue: real
    var difference: real
    var frames: int
    var scrollY: real
    ghost var written: seq<real>

    /** The current slide stays in [1, count]; a run in flight has a frame count
        of 40 or 60 and iterations left; a finished run performed exactly
        `frames + 1` ticks; the offsets written are the eased values in order. */
    ghost predicate Valid()
      reads this
    {
      1 <= currentSlide && (slideCount >= 1 ==> currentSlide <= slideCount) &&
      0 <= iteration && (iteration > 0 ==> frames > 0) &&
      (animating ==> frames == FramesFor(fastTier) && iteration <= frames) &&
      (!animating && iteration > 0 ==> iteration == frames + 1) &&
      |written| == iteration && EasedRun(written, startValue, difference, frames)
    }

    /** A transition towards `target` has just started from `from`. */
    ghost predicate RunStarted(target: Target, anchors: seq<real>, from: real)
      reads this
      requires target.Slide? ==> 1 <= target.num <= |anchors|
    {
      animating && iteration == 0 && written == [] &&
      startValue == from && difference == TargetOffset(target, anchors) - from &&
      frames == FramesFor(fastTier)
    }

    constructor (slideCount: nat, fastTier: bool, scrollY: real)
      ensures Valid()
      ensures this.slideCount == slideCount && this.fastTier == fastTier && this.scrollY == scrollY
      ensures currentSlide == 1 && !animating && !preventAnimateOnScroll && iteration == 0
    {
      this.slideCount := slideCount;
      this.fastTier := fastTier;
      this.scrollY := scrollY;
      currentSlide := 1;
      animating := false;
      preventAnimateOnScroll := false;
      iteration := 0;
      startValue, difference, frames := 0.0, 0.0, 0;
      written := [];
    }

    /** The host scrolls the page. */
    method ScrollTo(y: real)
      requires Valid()
      modifies this`scrollY
      ensures Valid() && scrollY == y
    {
      scrollY := y;
    }

    /** `slideTo`: start a transition from the current offset. It does not look
        at `animating`; callers that must not interrupt a run check it first. */
    method SlideTo(target: Target, anchors: seq<real>)
      requires Valid()
      requires target.Slide? ==> 1 <= target.num <= |anchors|
      modifies this`animating, this`iteration, this`startValue, this`difference,
               this`frames, this`written
      ensures Valid()
      ensures RunStarted(target, anchors, scrollY)
    {
      animating := true;
      iteration := 0;
      startValue := scrollY;
      difference := match target
        case Pixel(y) => y - scrollY
        case Slide(num) => anchors[num - 1] - scrollY;
      frames := FramesFor(fastTier);
      written := [];
    }

    /** `animateScroll`, driven by the caller once per frame while a run is in
        flight: write the eased offset, advance, and end the run after the
        iteration past the last frame. */
    method Tick()
      requires Valid() && animating
      modifies this`scrollY, this`iteration, this`animating, this`written
      ensures Valid()
      ensures scrollY == EaseInOutQuart(old(iteration) as real, startValue, difference, frames as real)
      ensures iteration == old(iteration) + 1
      ensures animating <==> iteration <= frames
      ensures written == old(written) + [scrollY]
    {
      var posY := EaseInOutQuart(iteration as real, startValue, difference, frames as real);
      scrollY := posY;
      written := written + [posY];
      iteration := iteration + 1;
      if iteration <= frames {
      } else {
        animating := false;
      }
    }

    /** `handleSlideEvents`. With input suppressed nothing happens. Otherwise the
        current slide is re-found from the scroll offset (even while animating,
        and for events with no direction) and the direction policy `Decide`,
        which holds the branches of the handler, gives the new slide and whether
        and where a transition starts; a run in flight is never replaced.
        Returns whether the browser's default scrolling is cancelled. */
    method HandleSlideEvents(ev: InputEvent, anchors: seq<real>, maxScroll: real)
      returns (prevented: bool)
      requires Valid() && slideCount >= 1 && |anchors| == slideCount
      modifies this`currentSlide, this`animating, this`iteration, this`startValue,
               this`difference, this`frames, this`written
      ensures Valid()
      ensures old(preventAnimateOnScroll) ==>
                !prevented && unchanged(this)
      ensures !old(preventAnimateOnScroll) ==>
                prevented == PreventsDefault(ev) &&
                var d := Decide(Classify(ev), old(animating), NearestSlide(anchors, scrollY),
                                slideCount, scrollY, maxScroll);
                currentSlide == d.slide &&
                (d.Go? ==> RunStarted(d.target, anchors, scrollY)) &&
                (d.Stay? ==> animating == old(animating) && iteration == old(iteration) &&
                             startValue == old(startValue) && difference == old(difference) &&
                             frames == old(frames) && written == old(written))
    {
      if preventAnimateOnScroll {
        return false;
      }
      var direction := Classify(ev);
      prevented := PreventsDefault(ev);

      var nearest := FindNearestSlide(anchors, scrollY);
      var d := Decide(direction, animating, nearest, slideCount, scrollY, maxScroll);
      currentSlide := d.slide;
      if d.Go? {
        SlideTo(d.target, anchors);
      }
    }
  }

  /** A finished run last wrote the target offset `startValue + difference`. */
  lemma FinishedRunLandsOnTarget(s: SnapScroller)
    requires s.Valid() && !s.animating && s.iteration > 0
    ensures |s.written| == s.frames + 1
    ensures s.written[s.frames] == s.startValue + s.difference
  {
    EaseEndpoints(s.startValue, s.difference, s.frames as real);
  }

  /** Every offset a run writes lies between its start and its target, and each
      is at least as far along as the one before. */
  lemma WrittenOffsetsTrackTarget(s: SnapScroller, k: int)
    requires s.Valid() && 0 <= k < |s.written|
    ensures Between(s.written[k], s.startValue, s.startValue + s.difference)
    ensures k > 0 && s.difference >= 0.0 ==> s.written[k - 1] <= s.written[k]
    ensures k > 0 && s.difference <= 0.0 ==> s.written[k - 1] >= s.written[k]
  {
    EaseWithinRun(k as real, s.startValue, s.difference, s.frames as real);
    if k > 0 {
      EaseMonotone((k - 1) as real, k as real, s.startValue, s.difference, s.frames as real);
    }
  }
}
