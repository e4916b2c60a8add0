/**
 * Team member card: a round photo (or the name's initial) with decorative
 * elements orbiting it. Orbit positions are polar (distance, angle in degrees);
 * the trigonometry is not modelled.
 */
module TeamMember {
  import opened Wrappers
  import OrbitAnimation
  import Utf16

  /** One orbit element as passed in; `None` is an omitted field. */
  datatype OrbitSpec = OrbitSpec(color: string, size: Option<real>, distance: Option<real>,
                                 duration: Option<real>, delay: Option<real>)

  /** `value || fallback`: an absent or zero number is replaced by the fallback. */
  function OrDefault(value: Option<real>, fallback: real): (r: real)
    ensures r == fallback || (value.Some? && r == value.value)
    ensures value.Some? && value.value != 0.0 ==> r == value.value
    ensures value.None? || value.value == 0.0 ==> r == fallback
    ensures fallback != 0.0 ==> r != 0.0
  {
    if value.Some? && value.value != 0.0 then value.value else fallback
  }

  /** Defaulting twice is defaulting once: a defaulted value is kept as it is. */
  lemma OrDefaultIdempotent(value: Option<real>, fallback: real)
    ensures OrDefault(Some(OrDefault(value, fallback)), fallback) == OrDefault(value, fallback)
  {
  }

  /** The timing of one track (x or y): linear easing, repeated forever. */
  datatype Transition = Transition(duration: real, ease: string, repeatForever: bool, delay: real)

  /** One rendered element: size, centring margins, initial position, keyframes and the two track transitions. */
  datatype OrbitView = OrbitView(
    size: real, marginTop: real, marginLeft: real,
    initial: OrbitAnimation.Position, keyframes: seq<OrbitAnimation.Position>,
    xTransition: Transition, yTransition: Transition)

  /** The angles the keyframes are sampled at. */
  const SampleAngles: seq<real> := [0.0, 90.0, 180.0, 270.0, 360.0]

  /** The element at `index`, with the `||` defaults 80, 20, 2 index and 36. */
  function RenderOrbit(e: OrbitSpec, index: nat): OrbitView
  {
    var distance := OrDefault(e.distance, 80.0);
    var duration := OrDefault(e.duration, 20.0);
    var delay := OrDefault(e.delay, index as real * 2.0);
    var size := OrDefault(e.size, 36.0);
    var pos := (a: real) => OrbitAnimation.CalculatePosition(distance, a);
    OrbitView(size, -size / 2.0, -size / 2.0, pos(0.0),
              [pos(0.0), pos(90.0), pos(180.0), pos(270.0), pos(360.0)],
              Transition(duration, "linear", true, delay),
              Transition(duration, "linear", true, delay))
  }

  /**
   * The main photo: the image when `photoUrl` is non-empty, else `charAt(0)`
   * of the name, which is one UTF-16 code unit (`None` for the empty string,
   * which shows nothing).
   */
  datatype Photo = Image(url: string) | Initial(codeUnit: Option<int>)

  function RenderPhoto(name: string, photoUrl: string): (p: Photo)
    ensures photoUrl != "" <==> p == Image(photoUrl)
    ensures photoUrl == "" ==> p.Initial? && (p.codeUnit.None? <==> |name| == 0)
    ensures photoUrl == "" && |name| > 0 && (name[0] as int) < 0x10000 ==> p == Initial(Some(name[0] as int))
    ensures photoUrl == "" && |name| > 0 && (name[0] as int) >= 0x10000 ==>
              p.codeUnit.Some? && 0xD800 <= p.codeUnit.value < 0xDC00
  {
    if photoUrl != "" then Image(photoUrl) else Initial(Utf16.FirstCodeUnit(name))
  }

  /** A name starting outside the basic plane shows only the high surrogate of its first character. */
  lemma AstralInitial()
    ensures RenderPhoto("\U{1F600}ve", "") == Initial(Some(0xD83D))
  {
    assert "\U{1F600}ve"[0] as int == 0x1F600;
  }

  function Render(orbitElements: seq<OrbitSpec>): (vs: seq<OrbitView>)
    ensures |vs| == |orbitElements|
    ensures forall i :: 0 <= i < |vs| ==> vs[i] == RenderOrbit(orbitElements[i], i)
  {
    seq(|orbitElements|, i requires 0 <= i < |orbitElements| => RenderOrbit(orbitElements[i], i))
  }

  /**
   * The `||` defaults: distance 80, duration 20, delay 2 index and size 36,
   * taken also when the given value is 0.
   */
  lemma Defaults(e: OrbitSpec, index: nat)
    requires forall v :: v in [e.size, e.distance, e.duration, e.delay] ==> v.None? || v == Some(0.0)
    ensures var v := RenderOrbit(e, index);
      && v.size == 36.0 && v.keyframes[0].distance == 80.0
      && v.xTransition.duration == 20.0 && v.xTransition.delay == 2.0 * index as real
  {
  }

  /**
   * Every element samples five keyframes at 0, 90, 180, 270 and 360 degrees on
   * its (possibly defaulted) distance, starting where its initial position is,
   * and is centred by margins of -size / 2.
   */
  lemma KeyframesAndCentring(e: OrbitSpec, index: nat)
    ensures var v := RenderOrbit(e, index);
      && |v.keyframes| == |SampleAngles| == 5
      && v.keyframes[0] == v.initial
      && (forall k :: 0 <= k < 5 ==>
            v.keyframes[k] == OrbitAnimation.Position(OrDefault(e.distance, 80.0), SampleAngles[k]))
      && v.keyframes[4].angleDeg == v.keyframes[0].angleDeg + 360.0
      && v.marginTop == v.marginLeft == -v.size / 2.0
  {
  }

  /**
   * In the rendered list, element i without its own delay starts 2 i seconds
   * late, so the elements set off one after another.
   */
  lemma RenderedDelays(orbitElements: seq<OrbitSpec>, i: nat)
    requires i < |orbitElements|
    requires orbitElements[i].delay.None? || orbitElements[i].delay == Some(0.0)
    ensures Render(orbitElements)[i].xTransition.delay == 2.0 * i as real
    ensures Render(orbitElements)[i].yTransition.delay == 2.0 * i as real
  {
  }

  /** The x and y tracks share duration, delay, linear easing and infinite repeat. */
  lemma TracksInStep(orbitElements: seq<OrbitSpec>)
    ensures forall i :: 0 <= i < |orbitElements| ==>
      var v := Render(orbitElements)[i];
      v.xTransition == v.yTransition && v.xTransition.ease == "linear" && v.xTransition.repeatForever
  {
  }
}
