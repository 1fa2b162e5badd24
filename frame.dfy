/** The frame driver: `updateCanvases`, which on every scroll moves each
    fixed-position canvas and redraws the ones in sight, and the every-other-frame
    video redraw of `playVideoFrame`. */
module FrameDriver {
  import opened Geometry
  import opened Config

  /** The window values read in a frame. */
  datatype Viewport = Viewport(innerHeight: real, pageYOffset: real)

  /** One tracked item: its parent box, its canvas, its media's size (`width`
      and `height` of an image, `videoWidth` and `videoHeight` of a video), and
      whether its canvas currently fills with a repeating pattern. */
  datatype Surface = Surface(
    offsetTop: real,
    offsetWidth: real,
    canvasWidth: real,
    canvasHeight: real,
    mediaWidth: real,
    mediaHeight: real,
    isPattern: bool)

  /** What a frame does to a canvas's contents: nothing (out of sight), a
      pattern fill shifted by an offset, or an image drawn into a rectangle. */
  datatype Draw = Skipped | PatternFill(offset: real) | Image(rect: Rect)

  /** The vertical translation of the fixed canvas: it puts the canvas where
      its parent is in the viewport. */
  function Translation(v: Viewport, s: Surface): (t: real)
    ensures t + v.pageYOffset == s.offsetTop
  {
    s.offsetTop - v.pageYOffset
  }

  /** The visibility test: the page is scrolled to where part of the parent can
      be in the viewport. */
  predicate InSight(v: Viewport, s: Surface)
  {
    !(v.pageYOffset < s.offsetTop - v.innerHeight ||
      v.pageYOffset > s.offsetTop + s.canvasHeight)
  }

  /** The geometry snapshot of item `i`. The option's own level stands in as the
      base level; for an array option `Drawable` rules out every path that
      would read it. */
  function SnapshotOf(v: Viewport, o: Options, s: Surface, i: nat): Snapshot
    requires HasItemLevel(o.parallaxLevel, i) && PositionOf(o.position).Some?
  {
    Snapshot(v.innerHeight, v.pageYOffset, s.offsetTop, s.offsetWidth,
             s.canvasWidth, s.canvasHeight, s.mediaWidth, s.mediaHeight,
             ItemLevel(o.parallaxLevel, i),
             if o.parallaxLevel.Level? then o.parallaxLevel.value else 0.0,
             PositionOf(o.position).value, o.scaleToParallax)
  }

  /** The inputs for which a frame computes only numbers: a surface in sight has
      a level; an image surface in sight also has a known alignment, does not
      read the base level of an array option, and has defined geometry. */
  predicate Drawable(v: Viewport, o: Options, s: Surface, i: nat)
  {
    InSight(v, s) ==>
      HasItemLevel(o.parallaxLevel, i) &&
      (!s.isPattern ==>
         PositionOf(o.position).Some? &&
         (o.parallaxLevel.PerItem? ==> !ReadsBaseLevel(SnapshotOf(v, o, s, i))) &&
         Defined(SnapshotOf(v, o, s, i)))
  }

  /** The drawing of item `i` in one frame. */
  function SurfaceDraw(v: Viewport, o: Options, s: Surface, i: nat): (d: Draw)
    requires Drawable(v, o, s, i)
    ensures d.Skipped? <==> !InSight(v, s)
    ensures d.PatternFill? <==> InSight(v, s) && s.isPattern
    ensures d.Image? <==> InSight(v, s) && !s.isPattern
  {
    if !InSight(v, s) then Skipped
    else if s.isPattern then
      PatternFill(v.pageYOffset * ItemLevel(o.parallaxLevel, i) - s.offsetTop)
    else Image(DrawRect(SnapshotOf(v, o, s, i)))
  }

  /** A pattern's origin moves at the item's parallax rate and is zero when the
      scrolled distance, scaled by that rate, equals the parent's offset. */
  lemma PatternOffsetRate(v: Viewport, o: Options, s: Surface, i: nat, delta: real)
    requires Drawable(v, o, s, i) && InSight(v, s) && s.isPattern
    requires Drawable(v.(pageYOffset := v.pageYOffset + delta), o, s, i)
    requires InSight(v.(pageYOffset := v.pageYOffset + delta), s)
    ensures SurfaceDraw(v.(pageYOffset := v.pageYOffset + delta), o, s, i).offset
            - SurfaceDraw(v, o, s, i).offset == delta * ItemLevel(o.parallaxLevel, i)
    ensures v.pageYOffset * ItemLevel(o.parallaxLevel, i) == s.offsetTop ==>
              SurfaceDraw(v, o, s, i).offset == 0.0
  {
    var l := ItemLevel(o.parallaxLevel, i);
    assert (v.pageYOffset + delta) * l == v.pageYOffset * l + delta * l;
  }

  /** The image drawn for a surface in sight whose media has a positive aspect
      ratio: aspect kept, at least as tall as the canvas, not starting right of
      the canvas's left edge, and at least as wide as the parent. */
  lemma ImageCoversCanvas(v: Viewport, o: Options, s: Surface, i: nat)
    requires Drawable(v, o, s, i) && InSight(v, s) && !s.isPattern
    requires Multiplier(SnapshotOf(v, o, s, i)) > 0.0
    requires v.innerHeight >= 0.0 && SnapshotOf(v, o, s, i).baseLevel >= 0.0
    ensures SurfaceDraw(v, o, s, i).Image?
    ensures var r := SurfaceDraw(v, o, s, i).rect;
            r.width * s.mediaHeight == r.height * s.mediaWidth &&
            r.height >= s.canvasHeight && r.x <= 0.0 && r.width >= s.offsetWidth
  {
    var snap := SnapshotOf(v, o, s, i);
    DrawRectKeepsAspect(snap);
    RemainderNonNegative(snap);
    DrawRectCoversWidth(snap);
    WidthFill(snap);
  }

  /** `updateCanvases`: every canvas gets its translation; each canvas gets the
      drawing of its own surface alone, skipped when out of sight. */
  method UpdateCanvases(v: Viewport, o: Options, surfaces: array<Surface>)
    returns (translations: array<real>, draws: array<Draw>)
    requires forall i :: 0 <= i < surfaces.Length ==> Drawable(v, o, surfaces[i], i)
    ensures fresh(translations) && fresh(draws)
    ensures translations.Length == surfaces.Length && draws.Length == surfaces.Length
    ensures forall i :: 0 <= i < surfaces.Length ==>
              translations[i] == Translation(v, surfaces[i])
    ensures forall i :: 0 <= i < surfaces.Length ==>
              draws[i] == SurfaceDraw(v, o, surfaces[i], i)
  {
    var n := surfaces.Length;
    translations := new real[n];
    draws := new Draw[n](_ => Skipped);
    for i := 0 to n
      invariant forall j :: 0 <= j < i ==> translations[j] == Translation(v, surfaces[j])
      invariant forall j :: 0 <= j < i ==> draws[j] == SurfaceDraw(v, o, surfaces[j], j)
    {
      var s := surfaces[i];
      translations[i] := (v.pageYOffset - s.offsetTop) * -1.0;

      if v.pageYOffset < s.offsetTop - v.innerHeight || v.pageYOffset > s.offsetTop + s.canvasHeight {
        draws[i] := Skipped;
        assert draws[i] == SurfaceDraw(v, o, s, i);
        continue;
      }

      var parallaxLevel := ItemLevel(o.parallaxLevel, i);
      if s.isPattern {
        var patternOffset := (v.pageYOffset * parallaxLevel) - s.offsetTop;
        draws[i] := PatternFill(patternOffset);
        assert draws[i] == SurfaceDraw(v, o, s, i);
        continue;
      }

      draws[i] := Image(DrawRect(SnapshotOf(v, o, s, i)));
      assert draws[i] == SurfaceDraw(v, o, s, i);
    }
  }

  /** The redraws one display frame makes when `chains` callbacks run on the
      shared toggle after `calls` earlier callbacks: a callback redraws exactly
      when an odd number of callbacks ran before it. */
  function FrameRedraws(calls: nat, chains: nat): (n: nat)
    ensures n <= chains
    ensures chains % 2 == 0 ==> n == chains / 2
  {
    assert (calls + chains) / 2 >= calls / 2;
    (calls + chains) / 2 - calls / 2
  }

  /** Redraws when `chains` videos load before the first display frame and then
      `frames` display frames run: each load makes its chain's first callback
      at once, and every frame runs each chain's callback once more. */
  function TotalRedraws(frames: nat, chains: nat): nat
  {
    if frames == 0 then FrameRedraws(0, chains)
    else TotalRedraws(frames - 1, chains) + FrameRedraws(frames * chains, chains)
  }

  /** The loads and `frames` frames make `(frames + 1) * chains` callbacks, and
      the shared toggle lets every other one redraw: one video redraws in frames
      1, 3, 5, ..., half the frames rounded up. */
  lemma {:induction false} TotalRedrawsHalfTheCallbacks(frames: nat, chains: nat)
    ensures TotalRedraws(frames, chains) == ((frames + 1) * chains) / 2
    ensures chains == 1 ==> TotalRedraws(frames, chains) == (frames + 1) / 2
  {
    if frames > 0 {
      TotalRedrawsHalfTheCallbacks(frames - 1, chains);
      assert frames * chains + chains == (frames + 1) * chains;
    }
  }

  /** One chain: frames alternate between no redraw and one redraw, so two
      consecutive frames make exactly one. */
  lemma OneChainThrottles(calls: nat)
    ensures FrameRedraws(calls, 1) == calls % 2
    ensures FrameRedraws(calls, 1) + FrameRedraws(calls + 1, 1) == 1
  {
  }

  /** Two chains: the toggle flips twice per frame, so every frame redraws,
      once, and the every-other-frame throttle is gone. */
  lemma TwoChainsRedrawEveryFrame(calls: nat)
    ensures FrameRedraws(calls, 2) == 1
  {
  }

  /** The video redraw toggle, shared by every `playVideoFrame` chain. `chains`
      is the number of chains rescheduling themselves; `calls` and `redraws`
      count the callbacks so far and those that redrew. */
  class VideoPump {
    var videoToggle: bool
    var chains: nat
    ghost var calls: nat
    ghost var redraws: nat

    /** Redraws happen on every other callback: half the callbacks so far,
        rounded down. */
    ghost predicate Valid()
      reads this
    {
      videoToggle == (calls % 2 == 1) && redraws == calls / 2
    }

    constructor ()
      ensures Valid() && !videoToggle && chains == 0 && calls == 0 && redraws == 0
    {
      videoToggle := false;
      chains := 0;
      calls, redraws := 0, 0;
    }

    /** `onVideoLoad`: every loaded video starts a chain of its own by making
        its first `playVideoFrame` callback at once. */
    method OnVideoLoad() returns (redraw: bool)
      requires Valid()
      modifies this`chains, this`videoToggle, this`calls, this`redraws
      ensures Valid() && chains == old(chains) + 1
      ensures redraw == old(videoToggle) && videoToggle == !old(videoToggle)
      ensures calls == old(calls) + 1
      ensures redraws == old(redraws) + (if redraw then 1 else 0)
    {
      chains := chains + 1;
      redraw := PlayVideoFrame();
    }

    /** A load handler that starts the chain, with its first callback, only for
        the first video, so one chain runs however many videos load. */
    method OnVideoLoadOnce() returns (redraw: bool)
      requires Valid()
      modifies this`chains, this`videoToggle, this`calls, this`redraws
      ensures Valid()
      ensures chains == (if old(chains) == 0 then 1 else old(chains))
      ensures redraw == (old(chains) == 0 && old(videoToggle))
      ensures videoToggle == (if old(chains) == 0 then !old(videoToggle) else old(videoToggle))
      ensures calls == old(calls) + (if old(chains) == 0 then 1 else 0)
      ensures redraws == old(redraws) + (if redraw then 1 else 0)
    {
      redraw := false;
      if chains == 0 {
        chains := 1;
        redraw := PlayVideoFrame();
      }
    }

    /** `playVideoFrame`: redraw when the toggle is set, then flip it. */
    method PlayVideoFrame() returns (redraw: bool)
      requires Valid()
      modifies this`videoToggle, this`calls, this`redraws
      ensures Valid()
      ensures redraw == old(videoToggle) && videoToggle == !old(videoToggle)
      ensures calls == old(calls) + 1
      ensures redraws == old(redraws) + (if redraw then 1 else 0)
    {
      redraw := videoToggle;
      videoToggle := !videoToggle;
      calls := calls + 1;
      if redraw {
        redraws := redraws + 1;
      }
    }

    /** One display frame: the callback of every chain runs once. Returns the
        number of redraws the frame makes. */
    method AnimationFrame() returns (n: nat)
      requires Valid()
      modifies this`videoToggle, this`calls, this`redraws
      ensures Valid()
      ensures calls == old(calls) + chains
      ensures n == FrameRedraws(old(calls), chains)
      ensures redraws == old(redraws) + n
    {
      n := 0;
      var c := 0;
      while c < chains
        invariant 0 <= c <= chains
        invariant Valid()
        invariant calls == old(calls) + c
        invariant redraws == old(redraws) + n
      {
        var redraw := PlayVideoFrame();
        if redraw {
          n := n + 1;
        }
        c := c + 1;
      }
    }
  }
}
