/**
 * Orbit animation: elements circling a centre. Positions are kept in polar
 * form (distance, angle in degrees), standing for x = d cos(angle pi / 180),
 * y = d sin(angle pi / 180); the trigonometry itself is not modelled.
 * `Math.random()` values are parameters in [0, 1).
 */
module OrbitAnimation {
  import opened Wrappers

  /** One orbiting element; `None` is an omitted optional field. */
  datatype OrbitElement = OrbitElement(
    id: int, distance: real, speed: real, size: real,
    initialAngle: Option<real>, clockwise: Option<bool>)

  /** `calculatePosition(distance, angle)`, in polar form. */
  datatype Position = Position(distance: real, angleDeg: real)

  function CalculatePosition(distance: real, angle: real): Position
  {
    Position(distance, angle)
  }

  predicate IsRandom(r: real) { 0.0 <= r < 1.0 }

  /** The width an element's orbit needs: its diameter plus the element itself. */
  function Extent(e: OrbitElement): real
  {
    e.distance * 2.0 + e.size
  }

  /** `Math.max(...elements.map(Extent))` for a non-empty list. */
  function MaxExtent(es: seq<OrbitElement>): (m: real)
    requires |es| > 0
    ensures forall i :: 0 <= i < |es| ==> Extent(es[i]) <= m
    ensures exists i :: 0 <= i < |es| && Extent(es[i]) == m
  {
    if |es| == 1 then Extent(es[0])
    else
      var rest := MaxExtent(es[1..]);
      assert forall i :: 1 <= i < |es| ==> es[i] == es[1..][i - 1];
      if Extent(es[0]) >= rest then Extent(es[0]) else rest
  }

  /** A container side: `Math.max` of no arguments is -Infinity, which stays -Infinity after + 20. */
  datatype Side = NegInfinity | Px(value: real)

  function ContainerSide(es: seq<OrbitElement>): (s: Side)
    ensures |es| == 0 <==> s.NegInfinity?
    ensures s.Px? ==>
              && (forall i :: 0 <= i < |es| ==> Extent(es[i]) + 20.0 <= s.value)
              && (exists i :: 0 <= i < |es| && Extent(es[i]) + 20.0 == s.value)
  {
    if |es| == 0 then NegInfinity else Px(MaxExtent(es) + 20.0)
  }

  /** `element.initialAngle || Math.random() * 360`: an absent or zero angle is replaced. */
  function InitialAngle(e: OrbitElement, rand: real): (a: real)
    requires IsRandom(rand)
    ensures e.initialAngle.None? || e.initialAngle.value == 0.0 ==> a == rand * 360.0 && 0.0 <= a < 360.0
    ensures e.initialAngle.Some? && e.initialAngle.value != 0.0 ==> a == e.initialAngle.value
  {
    if e.initialAngle.Some? && e.initialAngle.value != 0.0 then e.initialAngle.value else rand * 360.0
  }

  /** `20 / element.speed`; `None` stands for the Infinity a zero speed gives. */
  function Duration(e: OrbitElement): (d: Option<real>)
    ensures e.speed != 0.0 ==> d.Some? && d.value * e.speed == 20.0
    ensures e.speed == 0.0 ==> d.None?
  {
    if e.speed == 0.0 then None else Some(20.0 / e.speed)
  }

  /** `element.clockwise !== false`. */
  function Clockwise(e: OrbitElement): (cw: bool)
    ensures e.clockwise.None? ==> cw
    ensures e.clockwise == Some(true) ==> cw
    ensures e.clockwise == Some(false) ==> !cw
  {
    e.clockwise != Some(false)
  }

  /** The five keyframes shared by the x and y tracks: start, three quarter turns, start. */
  function Keyframes(distance: real, initialAngle: real, clockwise: bool): (ks: seq<Position>)
    ensures |ks| == 5
    ensures ks[0] == ks[4] == CalculatePosition(distance, initialAngle)
    ensures forall k :: 1 <= k <= 3 ==>
              ks[k] == CalculatePosition(distance, initialAngle + k as real * (if clockwise then 90.0 else -90.0))
  {
    var quarters := seq(3, i requires 0 <= i < 3 =>
      CalculatePosition(distance, initialAngle + (i + 1) as real * (if clockwise then 90.0 else -90.0)));
    [CalculatePosition(distance, initialAngle)] + quarters + [CalculatePosition(distance, initialAngle)]
  }

  /** How one element is drawn: a static translate under reduced motion, otherwise an animation. */
  datatype ElementView =
    | Static(size: real, marginTop: real, marginLeft: real, translate: Position)
    | Animated(size: real, marginTop: real, marginLeft: real, initial: Position,
               keyframes: seq<Position>, rotate: real, duration: Option<real>, delay: real)

  /** The whole component: container sides, the orbit-path circle diameters and the elements. */
  datatype OrbitView = OrbitView(width: Side, height: Side, pathDiameters: seq<real>, elements: seq<ElementView>)

  /** Two random numbers per element, for its initial angle and its delay. */
  predicate RandomPairs(rands: seq<(real, real)>)
  {
    forall i :: 0 <= i < |rands| ==> IsRandom(rands[i].0) && IsRandom(rands[i].1)
  }

  /** One orbiting element, given the reduced-motion flag and its two random numbers. */
  function RenderElement(reduced: bool, e: OrbitElement, randAngle: real, randDelay: real): (v: ElementView)
    requires IsRandom(randAngle) && IsRandom(randDelay)
  {
    var angle := InitialAngle(e, randAngle);
    var start := CalculatePosition(e.distance, angle);
    var cw := Clockwise(e);
    if reduced then Static(e.size, -e.size / 2.0, -e.size / 2.0, start)
    else Animated(e.size, -e.size / 2.0, -e.size / 2.0, start, Keyframes(e.distance, angle, cw),
                  if cw then 360.0 else -360.0, Duration(e), randDelay * 2.0)
  }

  /** The component's one piece of state, `prefersReducedMotion`, set once by the mount effect. */
  class OrbitAnimationState {
    var prefersReducedMotion: bool

    constructor ()
      ensures !prefersReducedMotion
    {
      prefersReducedMotion := false;
    }

    /** The mount effect copies the media query's answer. */
    method MountEffect(mediaMatches: bool)
      modifies this
      ensures prefersReducedMotion == mediaMatches
    {
      prefersReducedMotion := mediaMatches;
    }

    function Render(es: seq<OrbitElement>, rands: seq<(real, real)>): (view: OrbitView)
      reads this
      requires |rands| == |es| && RandomPairs(rands)
      ensures |view.pathDiameters| == |view.elements| == |es|
    {
      var reduced := prefersReducedMotion;
      OrbitView(ContainerSide(es), ContainerSide(es),
                seq(|es|, i requires 0 <= i < |es| => es[i].distance * 2.0),
                seq(|es|, i requires 0 <= i < |es| => RenderElement(reduced, es[i], rands[i].0, rands[i].1)))
    }
  }

  /**
   * The container is square, each side the largest 2 distance + size plus 20,
   * and each orbit-path circle has diameter 2 distance.
   */
  lemma ContainerAndPaths(s: OrbitAnimationState, es: seq<OrbitElement>, rands: seq<(real, real)>)
    requires |es| > 0 && |rands| == |es| && RandomPairs(rands)
    ensures var view := s.Render(es, rands);
      && view.width == view.height
      && view.width == Px(MaxExtent(es) + 20.0)
      && (forall i :: 0 <= i < |es| ==> view.pathDiameters[i] == 2.0 * es[i].distance)
      && (forall i :: 0 <= i < |es| ==>
            view.elements[i] == RenderElement(s.prefersReducedMotion, es[i], rands[i].0, rands[i].1))
  {
  }

  /**
   * An animated element runs five keyframes from its initial position through
   * three quarter turns (+90 degrees each when clockwise, -90 otherwise) back
   * to the start, rotates by +-360 and lasts 20 / speed seconds.
   */
  lemma AnimatedElement(e: OrbitElement, ra: real, rd: real)
    requires IsRandom(ra) && IsRandom(rd)
    ensures var v := RenderElement(false, e, ra, rd); var a := InitialAngle(e, ra);
      var step := if e.clockwise == Some(false) then -90.0 else 90.0;
      && v.Animated?
      && v.initial == Position(e.distance, a)
      && |v.keyframes| == 5 && v.keyframes[0] == v.keyframes[4] == v.initial
      && (forall k :: 1 <= k <= 3 ==> v.keyframes[k] == Position(e.distance, a + k as real * step))
      && v.rotate == (if e.clockwise == Some(false) then -360.0 else 360.0)
      && (e.speed != 0.0 ==> v.duration == Some(20.0 / e.speed))
      && 0.0 <= v.delay < 2.0
      && v.marginTop == v.marginLeft == -e.size / 2.0
  {
  }

  /** Under reduced motion every element sits still at its initial position. */
  lemma ReducedMotionIsStatic(e: OrbitElement, ra: real, rd: real)
    requires IsRandom(ra) && IsRandom(rd)
    ensures RenderElement(true, e, ra, rd) == Static(e.size, -e.size / 2.0, -e.size / 2.0, Position(e.distance, InitialAngle(e, ra)))
  {
  }

  /** An explicit initial angle of 0 (as the about page passes) is replaced by a random angle in [0, 360). */
  lemma ZeroAngleIsRandomised(e: OrbitElement, ra: real)
    requires IsRandom(ra) && e.initialAngle == Some(0.0)
    ensures InitialAngle(e, ra) == ra * 360.0 && 0.0 <= InitialAngle(e, ra) < 360.0
  {
  }
}
