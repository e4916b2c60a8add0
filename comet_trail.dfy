/**
 * The comet trail decoration: a small comet svg placed at one of four fixed
 * corners or at a randomised spot, animated across the screen with a random
 * pause between repeats, and not drawn at all under reduced motion.
 *
 * Each `Math.random()` draw is a parameter in [0,1).
 */
module CometTrail {
  import opened Wrappers

  predicate IsRandom(r: real) { 0.0 <= r < 1.0 }

  datatype Size = Sm | Md | Lg

  /** `sizeMap`: the svg is square, 24, 32 or 48 pixels. */
  function SidePx(s: Size): (px: nat)
    ensures px == 24 || px == 32 || px == 48
    ensures s == Md ==> px == 32
  {
    match s
    case Sm => 24
    case Md => 32
    case Lg => 48
  }

  /** The `position` prop; `Unlisted` is any other value, which the switch sends to its default. */
  datatype PositionProp = Random | TopLeft | TopRight | BottomLeft | BottomRight | Unlisted

  /** A style triple: top and left in percent, rotation in degrees. */
  datatype Placement = Placement(topPct: int, leftPct: int, rotateDeg: int)

  /** The initial value of the `randomPosition` state, before any effect has run. */
  const InitialPlacement := Placement(10, 0, -15)

  /** The effect's randomised placement from three draws. */
  function RandomPlacement(r1: real, r2: real, r3: real): (p: Placement)
    requires IsRandom(r1) && IsRandom(r2) && IsRandom(r3)
    ensures 10 <= p.topPct <= 79
    ensures 0 <= p.leftPct <= 19
    ensures -15 <= p.rotateDeg <= 14
  {
    Placement((r1 * 70.0).Floor + 10, (r2 * 20.0).Floor, (r3 * 30.0).Floor - 15)
  }

  /** The four fixed corners; `None` for the random and default cases. */
  function Corner(p: PositionProp): (c: Option<Placement>)
    ensures c.None? <==> p == Random || p == Unlisted
  {
    match p
    case TopLeft => Some(Placement(10, 0, -15))
    case TopRight => Some(Placement(10, 70, -15))
    case BottomLeft => Some(Placement(60, 0, -5))
    case BottomRight => Some(Placement(60, 70, -25))
    case _ => None
  }

  /** The animation timing handed to the animation library, in seconds. */
  datatype Timing = Timing(durationS: real, delayS: real, repeatDelayS: real, repeatForever: bool)

  /** What is drawn: placement, pixel size and timing. */
  datatype CometView = CometView(placement: Placement, widthPx: nat, heightPx: nat, timing: Timing)

  /** `cometVariants.animate.transition`: milliseconds to seconds, and a repeat delay from one draw. */
  function MakeTiming(durationMs: real, delayMs: real, rRepeat: real): (t: Timing)
    requires IsRandom(rRepeat)
    ensures t.durationS * 1000.0 == durationMs && t.delayS * 1000.0 == delayMs
    ensures 2.0 <= t.repeatDelayS < 7.0
    ensures t.repeatForever
  {
    Timing(durationMs / 1000.0, delayMs / 1000.0, rRepeat * 5.0 + 2.0, true)
  }

  /** The component's state: its `position` prop and the two `useState` slots. */
  class CometTrailState {
    var position: PositionProp
    var randomPosition: Placement
    var prefersReducedMotion: bool

    /** First render: both slots at their initial values. */
    constructor (position: PositionProp)
      ensures this.position == position
      ensures randomPosition == InitialPlacement && !prefersReducedMotion
    {
      this.position := position;
      randomPosition := InitialPlacement;
      prefersReducedMotion := false;
    }

    /** A new `position` prop from the parent; the effect then runs again (see `PositionEffect`). */
    method SetPosition(p: PositionProp)
      modifies this`position
      ensures position == p
    {
      position := p;
    }

    /**
     * The effect, run after mount and after each change of `position`:
     * it records the media query and recomputes the random placement
     * only when the prop asks for a random one.
     */
    method PositionEffect(mediaMatches: bool, r1: real, r2: real, r3: real)
      requires IsRandom(r1) && IsRandom(r2) && IsRandom(r3)
      modifies this`randomPosition, this`prefersReducedMotion
      ensures prefersReducedMotion == mediaMatches
      ensures position == Random ==> randomPosition == RandomPlacement(r1, r2, r3)
      ensures position != Random ==> randomPosition == old(randomPosition)
    {
      prefersReducedMotion := mediaMatches;
      if position == Random {
        randomPosition := RandomPlacement(r1, r2, r3);
      }
    }

    /** `positionStyles()`: a fixed corner, or the random slot. */
    function PositionStyles(): (p: Placement)
      reads this
      ensures Corner(position).Some? ==> p == Corner(position).value
      ensures Corner(position).None? ==> p == randomPosition
    {
      if Corner(position).Some? then Corner(position).value else randomPosition
    }

    /** The render: nothing under reduced motion, otherwise the comet. */
    function Render(size: Size, durationMs: real, delayMs: real, rRepeat: real): (v: Option<CometView>)
      requires IsRandom(rRepeat)
      reads this
      ensures v.None? <==> prefersReducedMotion
      ensures v.Some? ==> (
        && v.value.placement == PositionStyles()
        && v.value.widthPx == v.value.heightPx == SidePx(size)
        && v.value.timing == MakeTiming(durationMs, delayMs, rRepeat))
    {
      if prefersReducedMotion then None
      else
        var px := SidePx(size);
        Some(CometView(PositionStyles(), px, px, MakeTiming(durationMs, delayMs, rRepeat)))
    }
  }

  /** The bottom-right corner is 60% down, 70% across, tilted by -25 degrees. */
  lemma BottomRightCorner()
    ensures Corner(BottomRight) == Some(Placement(60, 70, -25))
  {
  }

  /** With the default props the comet takes six seconds and starts at once. */
  lemma DefaultTiming(rRepeat: real)
    requires IsRandom(rRepeat)
    ensures MakeTiming(6000.0, 0.0, rRepeat).durationS == 6.0
    ensures MakeTiming(6000.0, 0.0, rRepeat).delayS == 0.0
  {
  }

  /**
   * Whatever the effect has drawn, a rendered comet sits either on one of
   * the corners or inside the random band.
   */
  lemma PlacementBounds(p: PositionProp, r1: real, r2: real, r3: real)
    requires IsRandom(r1) && IsRandom(r2) && IsRandom(r3)
    ensures var q := if Corner(p).Some? then Corner(p).value else RandomPlacement(r1, r2, r3);
            10 <= q.topPct <= 79 && 0 <= q.leftPct <= 70 && -25 <= q.rotateDeg <= 14
  {
  }
}
