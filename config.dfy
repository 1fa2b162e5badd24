/** Construction options of a Parallax instance and their defaults. */
module Config {
  import opened Geometry

  datatype Option<T> = None | Some(value: T)

  /** `parallaxLevel` is either one number for every item or one per item. */
  datatype ParallaxLevel = Level(value: real) | PerItem(values: seq<real>)

  /** The options object as the page supplies it: `None` is an absent key. */
  datatype RawOptions = RawOptions(
    parallaxLevel: Option<ParallaxLevel>,
    dimens: Option<string>,
    position: Option<string>,
    scaleToParallax: Option<bool>,
    animateOnScroll: Option<bool>)

  /** The options after defaulting. `dimens` stays optional: its only
      recognised value is "full", and its default is null. */
  datatype Options = Options(
    parallaxLevel: ParallaxLevel,
    dimens: Option<string>,
    position: string,
    scaleToParallax: bool,
    animateOnScroll: bool)

  const DefaultParallaxLevel: real := 0.8
  const DefaultPosition: string := "center"
  const DefaultScaleToParallax: bool := true
  const DefaultAnimateOnScroll: bool := false

  /** No options object at all (`options || {}`). */
  const NoOptions: RawOptions := RawOptions(None, None, None, None, None)

  /** Each supplied option is kept; each absent one takes its default. */
  function WithDefaults(raw: RawOptions): (o: Options)
    ensures raw.parallaxLevel.Some? ==> o.parallaxLevel == raw.parallaxLevel.value
    ensures raw.parallaxLevel.None? ==> o.parallaxLevel == Level(DefaultParallaxLevel)
    ensures o.dimens == raw.dimens
    ensures raw.position.Some? ==> o.position == raw.position.value
    ensures raw.position.None? ==> o.position == DefaultPosition
    ensures raw.scaleToParallax.Some? ==> o.scaleToParallax == raw.scaleToParallax.value
    ensures raw.scaleToParallax.None? ==> o.scaleToParallax == DefaultScaleToParallax
    ensures raw.animateOnScroll.Some? ==> o.animateOnScroll == raw.animateOnScroll.value
    ensures raw.animateOnScroll.None? ==> o.animateOnScroll == DefaultAnimateOnScroll
  {
    Options(
      GetOr(raw.parallaxLevel, Level(DefaultParallaxLevel)),
      raw.dimens,
      GetOr(raw.position, DefaultPosition),
      GetOr(raw.scaleToParallax, DefaultScaleToParallax),
      GetOr(raw.animateOnScroll, DefaultAnimateOnScroll))
  }

  function GetOr<T>(x: Option<T>, default: T): T
  {
    match x
    case Some(v) => v
    case None => default
  }

  /** The same options with every key given explicitly. */
  function Supplied(o: Options): RawOptions
  {
    RawOptions(Some(o.parallaxLevel), o.dimens, Some(o.position),
               Some(o.scaleToParallax), Some(o.animateOnScroll))
  }

  /** Defaulting never overrides a supplied option, and is idempotent: options
      that already went through it come out unchanged. */
  lemma DefaultsKeepSuppliedOptions(o: Options)
    ensures WithDefaults(Supplied(o)) == o
    ensures WithDefaults(Supplied(WithDefaults(Supplied(o)))) == WithDefaults(Supplied(o))
  {
  }

  /** With no options object every option takes its documented default:
      parallax level 0.8, no `dimens`, centred, scaled to the parallax travel,
      and no snap scrolling. */
  lemma DefaultOptions()
    ensures WithDefaults(NoOptions)
            == Options(Level(0.8), None, "center", true, false)
  {
  }

  /** The alignment a `position` string selects; any other string selects none. */
  function PositionOf(name: string): (p: Option<Position>)
    ensures p == Some(Center) <==> name == "center"
    ensures p == Some(Top) <==> name == "top"
    ensures p == Some(TopCenter) <==> name == "top center"
  {
    if name == "center" then Some(Center)
    else if name == "top" then Some(Top)
    else if name == "top center" then Some(TopCenter)
    else None
  }

  /** Whether item `i` has a parallax level: always for one number, and for an
      array only when it has an entry at `i`. */
  predicate HasItemLevel(level: ParallaxLevel, i: nat)
  {
    level.PerItem? ==> i < |level.values|
  }

  /** The parallax level of item `i`: the array entry, or the number itself. */
  function ItemLevel(level: ParallaxLevel, i: nat): real
    requires HasItemLevel(level, i)
  {
    match level
    case Level(v) => v
    case PerItem(vs) => vs[i]
  }
}
