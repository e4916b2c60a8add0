/**
 * The parallax star background: a list of stars made when `starCount` is
 * set, split at random into three depth layers on every render, each layer
 * moving with the page scroll at its own rate unless reduced motion is on.
 *
 * Each `Math.random()` draw is a parameter in [0,1). Positions are percent
 * of the container, sizes pixels.
 */
module ParallaxBackground {
  import opened Sequences

  predicate IsRandom(r: real) { 0.0 <= r < 1.0 }

  datatype StarShape = StarShape(id: nat, x: real, y: real, size: real, opacity: real, color: string)

  /** The five draws for one star: position, size, opacity, then the colour's own draw. */
  datatype StarDraw = StarDraw(rx: real, ry: real, rSize: real, rOpacity: real, rColor: real)

  predicate ValidDraw(d: StarDraw)
  {
    IsRandom(d.rx) && IsRandom(d.ry) && IsRandom(d.rSize) && IsRandom(d.rOpacity) && IsRandom(d.rColor)
  }

  /** The four star colours, white first. */
  const StarColors: seq<string> := ["#FFFFFF", "#FFF9C4", "#BBDEFB", "#FFE0B2"]

  /** `getRandomStarColor`: white below 0.7, then pale yellow, pale blue and pale orange in bands of 0.1. */
  function StarColor(r: real): (c: string)
    ensures c in StarColors
    ensures c == StarColors[0] <==> r < 0.7
  {
    if r < 0.7 then StarColors[0]
    else if r < 0.8 then StarColors[1]
    else if r < 0.9 then StarColors[2]
    else StarColors[3]
  }

  /** A star with every attribute in range. */
  predicate ShapeInBounds(s: StarShape)
  {
    && 0.0 <= s.x < 100.0 && 0.0 <= s.y < 100.0
    && 1.0 <= s.size < 4.0
    && 0.3 <= s.opacity < 0.8
    && s.color in StarColors
  }

  /** The i-th star, made from its draws. */
  function MakeShape(i: nat, d: StarDraw): (s: StarShape)
    requires ValidDraw(d)
    ensures s.id == i && ShapeInBounds(s)
    ensures s.color == StarColor(d.rColor)
  {
    StarShape(i, d.rx * 100.0, d.ry * 100.0, d.rSize * 3.0 + 1.0, d.rOpacity * 0.5 + 0.3, StarColor(d.rColor))
  }

  /** How many stars the loop makes: none for a count of zero or less. */
  function LoopCount(starCount: int): nat
  {
    if starCount < 0 then 0 else starCount
  }

  /** The generation loop: the i-th star has id i and is made from the i-th draws. */
  method GenerateStars(starCount: int, draws: seq<StarDraw>) returns (stars: seq<StarShape>)
    requires |draws| == LoopCount(starCount)
    requires forall i :: 0 <= i < |draws| ==> ValidDraw(draws[i])
    ensures |stars| == LoopCount(starCount)
    ensures forall i :: 0 <= i < |stars| ==> stars[i] == MakeShape(i, draws[i])
    ensures forall i :: 0 <= i < |stars| ==> stars[i].id == i && ShapeInBounds(stars[i])
  {
    stars := [];
    var i := 0;
    while i < starCount
      invariant 0 <= i <= LoopCount(starCount)
      invariant |stars| == i
      invariant forall k :: 0 <= k < i ==> stars[k] == MakeShape(k, draws[k])
    {
      stars := stars + [MakeShape(i, draws[i])];
      i := i + 1;
    }
  }

  datatype Layer = Foreground | Middle | Background

  /** The layer a draw picks: below 0.3 the front, below 0.6 the middle, else the back. */
  function LayerOf(r: real): (l: Layer)
    ensures l == Foreground <==> r < 0.3
    ensures l == Background <==> r >= 0.6
  {
    if r < 0.3 then Foreground else if r < 0.6 then Middle else Background
  }

  /** The stars whose draw picks layer `l`, in list order. */
  function InLayer(stars: seq<StarShape>, rands: seq<real>, l: Layer): seq<StarShape>
    requires |rands| == |stars|
    decreases |stars|
  {
    if |stars| == 0 then []
    else
      var n := |stars| - 1;
      InLayer(stars[..n], rands[..n], l) + (if LayerOf(rands[n]) == l then [stars[n]] else [])
  }

  /** `getStarLayers`: one pass over the stars, pushing each onto the list its draw picks. */
  method GetStarLayers(stars: seq<StarShape>, rands: seq<real>)
      returns (foreground: seq<StarShape>, middle: seq<StarShape>, background: seq<StarShape>)
    requires |rands| == |stars|
    ensures foreground == InLayer(stars, rands, Foreground)
    ensures middle == InLayer(stars, rands, Middle)
    ensures background == InLayer(stars, rands, Background)
  {
    foreground, middle, background := [], [], [];
    var i := 0;
    while i < |stars|
      invariant 0 <= i <= |stars|
      invariant foreground == InLayer(stars[..i], rands[..i], Foreground)
      invariant middle == InLayer(stars[..i], rands[..i], Middle)
      invariant background == InLayer(stars[..i], rands[..i], Background)
    {
      assert stars[..i + 1][..i] == stars[..i] && rands[..i + 1][..i] == rands[..i];
      var r := rands[i];
      if r < 0.3 {
        foreground := foreground + [stars[i]];
      } else if r < 0.6 {
        middle := middle + [stars[i]];
      } else {
        background := background + [stars[i]];
      }
      i := i + 1;
    }
    assert stars[..i] == stars && rands[..i] == rands;
  }

  /** Taking off the last element takes one copy of it out of the multiset. */
  lemma SnocMultiset<T>(s: seq<T>)
    requires |s| > 0
    ensures multiset(s) == multiset(s[..|s| - 1]) + multiset{s[|s| - 1]}
  {
    assert s == s[..|s| - 1] + [s[|s| - 1]];
  }

  /** The last star joins its own layer and leaves the other two alone. */
  lemma LayerStep(stars: seq<StarShape>, rands: seq<real>, l: Layer)
    requires |rands| == |stars| > 0
    ensures multiset(InLayer(stars, rands, l))
            == multiset(InLayer(stars[..|stars| - 1], rands[..|stars| - 1], l))
               + (if LayerOf(rands[|stars| - 1]) == l then multiset{stars[|stars| - 1]} else multiset{})
  {
  }

  /** Every star lands in exactly one layer: the three layers together are the star list. */
  lemma {:induction false} LayersPartition(stars: seq<StarShape>, rands: seq<real>)
    requires |rands| == |stars|
    ensures multiset(InLayer(stars, rands, Foreground)) + multiset(InLayer(stars, rands, Middle))
            + multiset(InLayer(stars, rands, Background)) == multiset(stars)
    decreases |stars|
  {
    if |stars| > 0 {
      var n := |stars| - 1;
      LayersPartition(stars[..n], rands[..n]);
      SnocMultiset(stars);
      LastStarPlaced(stars, rands);
    }
  }

  /** Together, the three layers gain exactly one copy of the last star. */
  lemma LastStarPlaced(stars: seq<StarShape>, rands: seq<real>)
    requires |rands| == |stars| > 0
    ensures var n := |stars| - 1;
            multiset(InLayer(stars, rands, Foreground)) + multiset(InLayer(stars, rands, Middle))
            + multiset(InLayer(stars, rands, Background))
            == multiset(InLayer(stars[..n], rands[..n], Foreground)) + multiset(InLayer(stars[..n], rands[..n], Middle))
               + multiset(InLayer(stars[..n], rands[..n], Background)) + multiset{stars[n]}
  {
    var n := |stars| - 1;
    LayerStep(stars, rands, Foreground);
    LayerStep(stars, rands, Middle);
    LayerStep(stars, rands, Background);
    PlaceOne(multiset(InLayer(stars[..n], rands[..n], Foreground)),
             multiset(InLayer(stars[..n], rands[..n], Middle)),
             multiset(InLayer(stars[..n], rands[..n], Background)),
             multiset(InLayer(stars, rands, Foreground)),
             multiset(InLayer(stars, rands, Middle)),
             multiset(InLayer(stars, rands, Background)), stars[n], LayerOf(rands[n]));
  }

  /** Adding `x` to the one layer `l` names adds one copy of `x` to the three together. */
  lemma PlaceOne<T>(f0: multiset<T>, m0: multiset<T>, b0: multiset<T>,
                    f: multiset<T>, m: multiset<T>, b: multiset<T>, x: T, l: Layer)
    requires f == f0 + (if l == Foreground then multiset{x} else multiset{})
    requires m == m0 + (if l == Middle then multiset{x} else multiset{})
    requires b == b0 + (if l == Background then multiset{x} else multiset{})
    ensures f + m + b == f0 + m0 + b0 + multiset{x}
  {
  }

  /** Hence the three layers hold as many stars as the list. */
  lemma LayerSizes(stars: seq<StarShape>, rands: seq<real>)
    requires |rands| == |stars|
    ensures |InLayer(stars, rands, Foreground)| + |InLayer(stars, rands, Middle)|
            + |InLayer(stars, rands, Background)| == |stars|
  {
    LayersPartition(stars, rands);
    assert |multiset(InLayer(stars, rands, Foreground)) + multiset(InLayer(stars, rands, Middle))
            + multiset(InLayer(stars, rands, Background))| == |multiset(stars)|;
  }

  /** Each layer keeps the stars in list order. */
  lemma {:induction false} LayerKeepsOrder(stars: seq<StarShape>, rands: seq<real>, l: Layer)
    requires |rands| == |stars|
    ensures Subsequence(InLayer(stars, rands, l), stars)
    decreases |stars|
  {
    if |stars| > 0 {
      var n := |stars| - 1;
      LayerKeepsOrder(stars[..n], rands[..n], l);
      assert stars == stars[..n] + [stars[n]];
      if LayerOf(rands[n]) == l {
        SubsequenceKeepLast(stars[n], InLayer(stars[..n], rands[..n], l), stars[..n]);
      } else {
        assert InLayer(stars, rands, l) == InLayer(stars[..n], rands[..n], l);
        SubsequenceSkipLast(stars[n], InLayer(stars[..n], rands[..n], l), stars[..n]);
      }
    }
  }

  /** A layer's vertical motion: held at 0, or driven by the scroll position. */
  datatype Motion = Still | ScrollLinked(outputMax: real)

  /**
   * The offset of a layer at a scroll position: the scroll range [0,1000]
   * maps linearly onto [0, outputMax], clamped at both ends as the
   * animation library does by default.
   */
  function OffsetAt(m: Motion, scrollY: real): (y: real)
    ensures m.Still? ==> y == 0.0
    ensures m.ScrollLinked? && scrollY <= 0.0 ==> y == 0.0
    ensures m.ScrollLinked? && scrollY >= 1000.0 ==> y == m.outputMax
  {
    match m
    case Still => 0.0
    case ScrollLinked(outMax) =>
      var s := if scrollY < 0.0 then 0.0 else if scrollY > 1000.0 then 1000.0 else scrollY;
      s / 1000.0 * outMax
  }

  /** The per-layer rates: the front moves four times as far as the back. */
  function Rate(l: Layer): real
  {
    match l
    case Foreground => 200.0
    case Middle => 100.0
    case Background => 50.0
  }

  /** The drawing scale of a layer's stars, for both size and opacity. */
  function Scale(l: Layer): real
  {
    match l
    case Foreground => 1.0
    case Middle => 0.8
    case Background => 0.6
  }

  /** The motion of a layer: still under reduced motion, otherwise scroll-linked at the layer's rate. */
  function LayerMotion(l: Layer, reduced: bool, parallaxFactor: real): (m: Motion)
    ensures reduced <==> m.Still?
    ensures forall scrollY :: 1000.0 <= scrollY ==> OffsetAt(m, scrollY) == (if reduced then 0.0 else Rate(l) * parallaxFactor)
  {
    if reduced then Still else ScrollLinked(Rate(l) * parallaxFactor)
  }

  /** One star as drawn: `leftPct`/`topPct` and a square of `sizePx`. */
  datatype Dot = Dot(key: nat, leftPct: real, topPct: real, sizePx: real, color: string, opacity: real)

  function Draw(s: StarShape, scale: real): (d: Dot)
    ensures d.key == s.id && d.leftPct == s.x && d.topPct == s.y && d.color == s.color
    ensures d.sizePx == s.size * scale && d.opacity == s.opacity * scale
  {
    Dot(s.id, s.x, s.y, s.size * scale, s.color, s.opacity * scale)
  }

  function DrawAll(ss: seq<StarShape>, l: Layer): (ds: seq<Dot>)
    ensures |ds| == |ss|
    ensures forall i :: 0 <= i < |ss| ==> ds[i] == Draw(ss[i], Scale(l))
  {
    seq(|ss|, i requires 0 <= i < |ss| => Draw(ss[i], Scale(l)))
  }

  datatype LayerView = LayerView(motion: Motion, dots: seq<Dot>)
  datatype ParallaxView = ParallaxView(foreground: LayerView, middle: LayerView, background: LayerView)

  /** The component's props and state. */
  class ParallaxBackgroundState {
    var starCount: int
    var parallaxFactor: real
    var stars: seq<StarShape>
    var prefersReducedMotion: bool

    /** First render: no stars yet, motion allowed. */
    constructor (starCount: int, parallaxFactor: real)
      ensures this.starCount == starCount && this.parallaxFactor == parallaxFactor
      ensures stars == [] && !prefersReducedMotion
    {
      this.starCount := starCount;
      this.parallaxFactor := parallaxFactor;
      stars := [];
      prefersReducedMotion := false;
    }

    /** The effect, run after mount and after each change of `starCount`: a fresh star list. */
    method StarEffect(mediaMatches: bool, draws: seq<StarDraw>)
      requires |draws| == LoopCount(starCount)
      requires forall i :: 0 <= i < |draws| ==> ValidDraw(draws[i])
      modifies this`stars, this`prefersReducedMotion
      ensures prefersReducedMotion == mediaMatches
      ensures |stars| == LoopCount(starCount)
      ensures forall i :: 0 <= i < |stars| ==> stars[i] == MakeShape(i, draws[i])
    {
      prefersReducedMotion := mediaMatches;
      stars := GenerateStars(starCount, draws);
    }

    /**
     * A render. The layers are drawn afresh from `rands`, one draw per star,
     * so the same stars can change layer from one render to the next.
     */
    method Render(rands: seq<real>) returns (v: ParallaxView)
      requires |rands| == |stars|
      ensures v.foreground == LayerView(LayerMotion(Foreground, prefersReducedMotion, parallaxFactor),
                                        DrawAll(InLayer(stars, rands, Foreground), Foreground))
      ensures v.middle == LayerView(LayerMotion(Middle, prefersReducedMotion, parallaxFactor),
                                    DrawAll(InLayer(stars, rands, Middle), Middle))
      ensures v.background == LayerView(LayerMotion(Background, prefersReducedMotion, parallaxFactor),
                                        DrawAll(InLayer(stars, rands, Background), Background))
    {
      var fg, mid, bg := GetStarLayers(stars, rands);
      v := ParallaxView(
        LayerView(LayerMotion(Foreground, prefersReducedMotion, parallaxFactor), DrawAll(fg, Foreground)),
        LayerView(LayerMotion(Middle, prefersReducedMotion, parallaxFactor), DrawAll(mid, Middle)),
        LayerView(LayerMotion(Background, prefersReducedMotion, parallaxFactor), DrawAll(bg, Background)));
    }
  }

  /**
   * Every dot a layer draws from in-range stars keeps its star's id, position
   * and colour, and is at most as large and as opaque as the star: full size
   * in front, 0.8 in the middle and 0.6 at the back, so no dot exceeds 4 px
   * or opacity 0.8.
   */
  lemma DrawnInBounds(ss: seq<StarShape>, l: Layer)
    requires forall i :: 0 <= i < |ss| ==> ShapeInBounds(ss[i])
    ensures var ds := DrawAll(ss, l);
      forall i :: 0 <= i < |ds| ==>
        && ds[i].key == ss[i].id && ds[i].color in StarColors
        && 0.0 <= ds[i].leftPct < 100.0 && 0.0 <= ds[i].topPct < 100.0
        && 0.6 <= ds[i].sizePx <= ss[i].size < 4.0
        && 0.18 <= ds[i].opacity <= ss[i].opacity < 0.8
        && (ds[i].sizePx == ss[i].size <==> l == Foreground)
  {
    var ds := DrawAll(ss, l);
    forall i | 0 <= i < |ds|
      ensures 0.6 <= ds[i].sizePx <= ss[i].size && 0.18 <= ds[i].opacity <= ss[i].opacity
      ensures ds[i].sizePx == ss[i].size <==> l == Foreground
    {
      assert ShapeInBounds(ss[i]);
      match l
      case Foreground =>
      case Middle =>
      case Background =>
    }
  }

  /** The colour bands: each draw in [0,1) gets the colour of its band. */
  lemma ColorBands(r: real)
    requires IsRandom(r)
    ensures r < 0.7 ==> StarColor(r) == "#FFFFFF"
    ensures 0.7 <= r < 0.8 ==> StarColor(r) == "#FFF9C4"
    ensures 0.8 <= r < 0.9 ==> StarColor(r) == "#BBDEFB"
    ensures 0.9 <= r ==> StarColor(r) == "#FFE0B2"
  {
  }

  /** A render draws as many dots, over the three layers together, as there are stars. */
  lemma RenderedOnce(stars: seq<StarShape>, rands: seq<real>)
    requires |rands| == |stars|
    ensures |DrawAll(InLayer(stars, rands, Foreground), Foreground)|
            + |DrawAll(InLayer(stars, rands, Middle), Middle)|
            + |DrawAll(InLayer(stars, rands, Background), Background)| == |stars|
  {
    LayerSizes(stars, rands);
  }

  /** With the default factor 0.3, at scroll 1000 the layers sit 60, 30 and 15 pixels down. */
  lemma DefaultOffsets()
    ensures OffsetAt(LayerMotion(Foreground, false, 0.3), 1000.0) == 60.0
    ensures OffsetAt(LayerMotion(Middle, false, 0.3), 1000.0) == 30.0
    ensures OffsetAt(LayerMotion(Background, false, 0.3), 1000.0) == 15.0
  {
  }
}
