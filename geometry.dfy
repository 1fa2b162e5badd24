/** The per-frame draw rectangle of one parallax surface (the rectangle
    arithmetic inside `updateCanvases`), as a pure function of a snapshot of
    the page, the surface and the options. */
module Geometry {

  /** The `position` option: "center", "top" or "top center". */
  datatype Position = Center | Top | TopCenter

  /** Everything the rectangle arithmetic reads in one frame. `level` is the
      per-item parallax level (one entry of an array option, or the option
      itself); `baseLevel` is the option read directly, as the scaled-height
      and top-alignment lines do. Canvas and parent sizes are kept apart
      because the width fill reads the parent and the horizontal position
      reads the canvas. `mediaWidth` and `mediaHeight` are the sizes the aspect
      ratio is taken from: the element's `width` and `height` properties for an
      image, `videoWidth` and `videoHeight` for a video. */
  datatype Snapshot = Snapshot(
    innerHeight: real,
    pageYOffset: real,
    offsetTop: real,
    offsetWidth: real,
    canvasWidth: real,
    canvasHeight: real,
    mediaWidth: real,
    mediaHeight: real,
    level: real,
    baseLevel: real,
    position: Position,
    scaleToParallax: bool)

  /** Arguments of `drawImage`: top-left corner and rendered size. */
  datatype Rect = Rect(x: real, y: real, width: real, height: real)

  /** Aspect ratio of the media, width over height. */
  function Multiplier(s: Snapshot): (m: real)
    requires s.mediaHeight != 0.0
    ensures m * s.mediaHeight == s.mediaWidth
  {
    s.mediaWidth / s.mediaHeight
  }

  /** Height the image is scaled to before the width fill. */
  function DesiredHeight(s: Snapshot): real
  {
    match s.position
    case Center =>
      if s.canvasHeight < s.innerHeight && s.scaleToParallax
      then Min(s.innerHeight, s.canvasHeight + s.innerHeight * s.baseLevel)
      else Max(s.innerHeight, s.canvasHeight)
    case Top => s.canvasHeight
    case TopCenter => s.canvasHeight
  }

  /** The snapshots the arithmetic is defined on: a non-zero media height,
      and a non-zero rendered width whenever the width fill divides by it. */
  predicate Defined(s: Snapshot)
  {
    s.mediaHeight != 0.0 &&
    (DesiredHeight(s) * Multiplier(s) < s.offsetWidth ==> DesiredHeight(s) * Multiplier(s) != 0.0)
  }

  /** Desired height after the width fill: when the image would be narrower than
      the parent, it is scaled up by parent width / rendered width. */
  function FilledHeight(s: Snapshot): real
    requires Defined(s)
  {
    var desired := DesiredHeight(s);
    var m := Multiplier(s);
    if desired * m < s.offsetWidth then desired * (s.offsetWidth / (desired * m)) else desired
  }

  /** Half the vertical overflow of the image over the canvas: the image
      overhangs the canvas by this much above and below. */
  function Remainder(s: Snapshot): (r: real)
    requires Defined(s)
    ensures s.canvasHeight + 2.0 * r == FilledHeight(s)
  {
    (FilledHeight(s) - s.canvasHeight) / 2.0
  }

  /** The scroll offset at which the canvas sits vertically centred in the
      viewport: scrolled there, the canvas centre is the viewport centre. */
  function CenterScroll(s: Snapshot): (c: real)
    ensures (s.offsetTop - c) + s.canvasHeight / 2.0 == s.innerHeight / 2.0
  {
    s.offsetTop - (s.innerHeight - s.canvasHeight) / 2.0
  }

  function PosX(s: Snapshot): real
    requires Defined(s)
  {
    Min(0.0, (s.canvasWidth - FilledHeight(s) * Multiplier(s)) / 2.0)
  }

  function PosY(s: Snapshot): real
    requires Defined(s)
  {
    match s.position
    case Center => (s.pageYOffset - CenterScroll(s)) * s.level - Remainder(s)
    case Top => s.pageYOffset * s.baseLevel
    case TopCenter => s.pageYOffset * s.level - Remainder(s)
  }

  function DrawRect(s: Snapshot): Rect
    requires Defined(s)
  {
    Rect(PosX(s), PosY(s), FilledHeight(s) * Multiplier(s), FilledHeight(s))
  }

  /** The alignment paths that read the option's own parallax level rather than
      the per-item one. */
  predicate ReadsBaseLevel(s: Snapshot)
  {
    s.position == Top ||
    (s.position == Center && s.canvasHeight < s.innerHeight && s.scaleToParallax)
  }

  function Min(a: real, b: real): real { if a < b then a else b }

  function Max(a: real, b: real): real { if a > b then a else b }

  /** Positive media size, a canvas of positive height, a viewport of
      non-negative height and a non-negative level. */
  predicate Nondegenerate(s: Snapshot)
  {
    s.mediaWidth > 0.0 && s.mediaHeight > 0.0 &&
    s.canvasHeight > 0.0 && s.innerHeight >= 0.0 && s.baseLevel >= 0.0
  }

  lemma MultiplierPositive(s: Snapshot)
    requires s.mediaWidth > 0.0 && s.mediaHeight > 0.0
    ensures Multiplier(s) > 0.0
  {
  }

  /** The image is never scaled below the canvas height, so the overflow is
      never negative; a centred surface is scaled to at most the larger of
      viewport and canvas, and the parallax scale-up adds at most what the
      parallax travel needs; top alignments keep the canvas height. */
  lemma DesiredHeightBounds(s: Snapshot)
    requires s.baseLevel >= 0.0 && s.innerHeight >= 0.0
    ensures DesiredHeight(s) >= s.canvasHeight
    ensures s.position == Center ==> DesiredHeight(s) <= Max(s.innerHeight, s.canvasHeight)
    ensures ReadsBaseLevel(s) && s.position == Center ==>
              DesiredHeight(s) - s.canvasHeight <= s.innerHeight * s.baseLevel
    ensures s.position == Center && !ReadsBaseLevel(s) ==>
              DesiredHeight(s) >= s.innerHeight
    ensures s.position != Center ==> DesiredHeight(s) == s.canvasHeight
  {
    assert s.innerHeight * s.baseLevel >= 0.0;
  }

  /** A non-degenerate snapshot needs no further guard. */
  lemma NondegenerateDefined(s: Snapshot)
    requires Nondegenerate(s)
    ensures Defined(s)
    ensures DesiredHeight(s) > 0.0
  {
    DesiredHeightBounds(s);
    MultiplierPositive(s);
    assert DesiredHeight(s) * Multiplier(s) > 0.0;
  }

  /** After the width fill the image is at least as wide as the parent, exactly
      as wide when the fill fired, and never shorter than the desired height. */
  lemma WidthFill(s: Snapshot)
    requires Defined(s) && Multiplier(s) > 0.0
    ensures FilledHeight(s) * Multiplier(s) >= s.offsetWidth
    ensures FilledHeight(s) >= DesiredHeight(s)
    ensures DesiredHeight(s) * Multiplier(s) < s.offsetWidth ==>
              FilledHeight(s) * Multiplier(s) == s.offsetWidth
    ensures DesiredHeight(s) * Multiplier(s) >= s.offsetWidth ==>
              FilledHeight(s) == DesiredHeight(s)
  {
    var d, m, w := DesiredHeight(s), Multiplier(s), s.offsetWidth;
    if d * m < w {
      var q := d * m;
      assert q != 0.0;
      var k := w / q;
      assert k * q == w;
      assert FilledHeight(s) == d * k;
      assert (d * k) * m == k * q;
      // k - 1 has the sign of q, which is the sign of d, so d * (k - 1) > 0
      assert (k - 1.0) * q == w - q > 0.0;
      assert d * k - d == d * (k - 1.0);
      if d > 0.0 {
        assert q > 0.0 && k - 1.0 > 0.0;
      } else {
        assert q < 0.0 && k - 1.0 < 0.0;
      }
    }
  }

  /** The image overflows the canvas vertically by a non-negative amount, so the
      vertical offset subtracted for centring is never negative. */
  lemma RemainderNonNegative(s: Snapshot)
    requires Defined(s) && Multiplier(s) > 0.0
    requires s.baseLevel >= 0.0 && s.innerHeight >= 0.0
    ensures Remainder(s) >= 0.0
    ensures DrawRect(s).height >= s.canvasHeight
  {
    WidthFill(s);
    DesiredHeightBounds(s);
  }

  /** The image keeps the media's aspect ratio. */
  lemma DrawRectKeepsAspect(s: Snapshot)
    requires Defined(s)
    ensures DrawRect(s).width * s.mediaHeight == DrawRect(s).height * s.mediaWidth
  {
    var h := FilledHeight(s);
    assert h * Multiplier(s) * s.mediaHeight == h * (Multiplier(s) * s.mediaHeight);
  }

  /** The image never starts right of the canvas's left edge; when the canvas is
      as wide as its parent (as `onResize` sets it) the image also reaches the
      right edge and overhangs both sides by the same amount. */
  lemma DrawRectCoversWidth(s: Snapshot)
    requires Defined(s) && Multiplier(s) > 0.0
    ensures DrawRect(s).x <= 0.0
    ensures s.canvasWidth == s.offsetWidth ==>
              DrawRect(s).x + DrawRect(s).width >= s.canvasWidth &&
              -DrawRect(s).x == DrawRect(s).x + DrawRect(s).width - s.canvasWidth
  {
    WidthFill(s);
  }

  /** The parallax rate: scrolling by `delta` moves the image vertically by
      `delta` times the level - the per-item level for "center" and
      "top center", but the option's own level for "top". */
  lemma VerticalParallaxRate(s: Snapshot, delta: real)
    requires Defined(s)
    ensures Defined(s.(pageYOffset := s.pageYOffset + delta))
    ensures PosY(s.(pageYOffset := s.pageYOffset + delta)) - PosY(s)
            == delta * (if s.position == Top then s.baseLevel else s.level)
  {
    var s' := s.(pageYOffset := s.pageYOffset + delta);
    assert Defined(s') && Remainder(s') == Remainder(s) by {
      assert DesiredHeight(s') == DesiredHeight(s);
      assert FilledHeight(s') == FilledHeight(s);
    }
    assert CenterScroll(s') == CenterScroll(s);
    match s.position
    case Center =>
      assert (s'.pageYOffset - CenterScroll(s)) * s.level
             == (s.pageYOffset - CenterScroll(s)) * s.level + delta * s.level;
    case Top =>
      assert s'.pageYOffset * s.baseLevel == s.pageYOffset * s.baseLevel + delta * s.baseLevel;
    case TopCenter =>
      assert s'.pageYOffset * s.level == s.pageYOffset * s.level + delta * s.level;
  }

  /** The rest position of each alignment: a "center" image is vertically centred
      on the canvas when the canvas is centred in the viewport, a "top center"
      image when the page is at the top, and a "top" image is flush with the
      canvas top when the page is at the top. */
  lemma AlignmentRestPositions(s: Snapshot)
    requires Defined(s)
    ensures s.position == Center && s.pageYOffset == CenterScroll(s) ==>
              DrawRect(s).y + DrawRect(s).height / 2.0 == s.canvasHeight / 2.0
    ensures s.position == TopCenter && s.pageYOffset == 0.0 ==>
              DrawRect(s).y + DrawRect(s).height / 2.0 == s.canvasHeight / 2.0
    ensures s.position == Top && s.pageYOffset == 0.0 ==> DrawRect(s).y == 0.0
  {
  }
}
