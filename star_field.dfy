/**
 * The full-window star canvas: a star list generated once at mount from the
 * window size, a frame counter that drives each star's twinkle, and an
 * occasional shooting star drawn for a single frame.
 *
 * Each `Math.random()` draw is a parameter in [0,1); the sine of a star's
 * twinkle phase is a parameter in [-1,1]. Angles are in multiples of pi.
 */
module StarField {
  import opened Wrappers

  predicate IsRandom(r: real) { 0.0 <= r < 1.0 }

  /** One star; `twinkleOffsetPi` is its phase offset divided by pi. */
  datatype Star = Star(x: real, y: real, size: real, opacity: real, twinkleSpeed: real, twinkleOffsetPi: real)

  /** The six draws that make one star, in the order the source takes them. */
  datatype StarDraw = StarDraw(rx: real, ry: real, rSize: real, rOpacity: real, rSpeed: real, rOffset: real)

  predicate ValidDraw(d: StarDraw)
  {
    IsRandom(d.rx) && IsRandom(d.ry) && IsRandom(d.rSize)
    && IsRandom(d.rOpacity) && IsRandom(d.rSpeed) && IsRandom(d.rOffset)
  }

  /** One star per 8000 square pixels, rounded down. */
  function StarCount(width: nat, height: nat): (n: nat)
    ensures n * 8000 <= width * height < (n + 1) * 8000
  {
    (width * height) / 8000
  }

  /** A star inside a `width` by `height` canvas, with every attribute in its range. */
  predicate StarInBounds(s: Star, width: nat, height: nat)
  {
    && 0.0 <= s.x < width as real
    && 0.0 <= s.y < height as real
    && 0.5 <= s.size < 2.5
    && 0.3 <= s.opacity < 1.0
    && 0.003 <= s.twinkleSpeed < 0.013
    && 0.0 <= s.twinkleOffsetPi < 2.0
  }

  /** The star built from one set of draws. */
  function MakeStar(width: nat, height: nat, d: StarDraw): (s: Star)
    requires ValidDraw(d) && width > 0 && height > 0
    ensures StarInBounds(s, width, height)
    ensures s.x == d.rx * width as real && s.y == d.ry * height as real
  {
    var w, h := width as real, height as real;
    assert w > 0.0 && h > 0.0;
    ScaleInside(d.rx, w);
    ScaleInside(d.ry, h);
    Star(d.rx * w, d.ry * h, d.rSize * 2.0 + 0.5,
         d.rOpacity * 0.7 + 0.3, d.rSpeed * 0.01 + 0.003, d.rOffset * 2.0)
  }

  /** A canvas with room for at least one star has both sides positive. */
  lemma RoomForAStar(width: nat, height: nat)
    requires StarCount(width, height) > 0
    ensures width > 0 && height > 0
  {
  }

  /** A draw in [0,1) scales a positive length to a point inside it. */
  lemma ScaleInside(r: real, len: real)
    requires IsRandom(r) && len >= 0.0
    ensures 0.0 <= r * len && (len > 0.0 ==> r * len < len)
  {
    assert len - r * len == (1.0 - r) * len;
  }

  /** The generation loop: exactly `StarCount` stars, the i-th made from the i-th draws. */
  method GenerateStars(width: nat, height: nat, draws: seq<StarDraw>) returns (stars: seq<Star>)
    requires |draws| == StarCount(width, height)
    requires forall i :: 0 <= i < |draws| ==> ValidDraw(draws[i])
    ensures |stars| == StarCount(width, height)
    ensures StarCount(width, height) > 0 ==> width > 0 && height > 0
    ensures forall i :: 0 <= i < |stars| ==> width > 0 && height > 0 && stars[i] == MakeStar(width, height, draws[i])
    ensures forall i :: 0 <= i < |stars| ==> StarInBounds(stars[i], width, height)
  {
    var count := StarCount(width, height);
    if count > 0 {
      RoomForAStar(width, height);
    }
    stars := [];
    var i := 0;
    while i < count
      invariant 0 <= i <= count
      invariant |stars| == i
      invariant forall k :: 0 <= k < i ==> width > 0 && height > 0 && stars[k] == MakeStar(width, height, draws[k])
    {
      stars := stars + [MakeStar(width, height, draws[i])];
      i := i + 1;
    }
  }

  /** One star as drawn in a frame: its circle and its twinkled opacity. */
  datatype Dot = Dot(x: real, y: real, radius: real, alpha: real)

  /** The twinkle scales the star's opacity by `sine * 0.5 + 0.5`, a factor in [0,1]. */
  function Twinkle(s: Star, sine: real): (d: Dot)
    requires -1.0 <= sine <= 1.0
    requires 0.0 <= s.opacity
    ensures 0.0 <= d.alpha <= s.opacity
    ensures d.x == s.x && d.y == s.y && d.radius == s.size
  {
    Dot(s.x, s.y, s.size, s.opacity * (sine * 0.5 + 0.5))
  }

  /** A shooting star: a straight streak at a fixed angle, `anglePi` times pi. */
  datatype Streak = Streak(startX: real, startY: real, length: real, anglePi: real)

  /** The shooting star made from three draws. */
  function MakeStreak(width: nat, height: nat, rx: real, ry: real, rLength: real): (s: Streak)
    requires IsRandom(rx) && IsRandom(ry) && IsRandom(rLength)
    ensures 0.0 <= s.startX && (width > 0 ==> s.startX < width as real)
    ensures 0.0 <= s.startY && (height > 0 ==> s.startY < height as real / 3.0)
    ensures 50.0 <= s.length < 150.0
    ensures s.anglePi == 0.25
  {
    var w, third := width as real, height as real / 3.0;
    assert width > 0 ==> w > 0.0;
    assert height > 0 ==> third > 0.0 && third < height as real;
    ScaleInside(rx, w);
    ScaleInside(ry, third);
    Streak(rx * w, ry * third, rLength * 100.0 + 50.0, 0.25)
  }

  /** A shooting star appears when its draw is below 0.005. */
  function MaybeStreak(width: nat, height: nat, rChance: real, rx: real, ry: real, rLength: real): (o: Option<Streak>)
    requires IsRandom(rx) && IsRandom(ry) && IsRandom(rLength)
    ensures o.Some? <==> rChance < 0.005
  {
    if rChance < 0.005 then Some(MakeStreak(width, height, rx, ry, rLength)) else None
  }

  /** Everything one frame draws on the cleared canvas. */
  datatype Frame = Frame(dots: seq<Dot>, streak: Option<Streak>)

  /** The canvas and the effect's local state. */
  class StarFieldCanvas {
    var width: nat
    var height: nat
    var stars: seq<Star>
    var time: int

    /** All stars in bounds of the size the canvas had when they were made. */
    ghost const mountWidth: nat
    ghost const mountHeight: nat

    ghost predicate Valid()
      reads this
    {
      forall i :: 0 <= i < |stars| ==> StarInBounds(stars[i], mountWidth, mountHeight)
    }

    /** The effect at mount: size the canvas to the window, make the stars, start the clock at 0. */
    constructor Mount(innerWidth: nat, innerHeight: nat, draws: seq<StarDraw>)
      requires |draws| == StarCount(innerWidth, innerHeight)
      requires forall i :: 0 <= i < |draws| ==> ValidDraw(draws[i])
      ensures Valid()
      ensures width == innerWidth && height == innerHeight && time == 0
      ensures mountWidth == innerWidth && mountHeight == innerHeight
      ensures |stars| == StarCount(innerWidth, innerHeight)
      ensures forall i :: 0 <= i < |stars| ==> StarInBounds(stars[i], innerWidth, innerHeight)
    {
      var s := GenerateStars(innerWidth, innerHeight, draws);
      width := innerWidth;
      height := innerHeight;
      mountWidth := innerWidth;
      mountHeight := innerHeight;
      stars := s;
      time := 0;
    }

    /** The resize listener: new canvas dimensions, same stars. */
    method Resize(innerWidth: nat, innerHeight: nat)
      requires Valid()
      modifies this`width, this`height
      ensures Valid()
      ensures width == innerWidth && height == innerHeight
      ensures stars == old(stars) && time == old(time)
    {
      width := innerWidth;
      height := innerHeight;
    }

    /**
     * One animation frame: the clock advances by one, every star is drawn
     * with its twinkle, and a shooting star may be added.
     * `sines[i]` is the sine of the i-th star's phase at the new time.
     */
    method DrawFrame(sines: seq<real>, rChance: real, rx: real, ry: real, rLength: real) returns (f: Frame)
      requires Valid()
      requires |sines| == |stars|
      requires forall i :: 0 <= i < |sines| ==> -1.0 <= sines[i] <= 1.0
      requires IsRandom(rx) && IsRandom(ry) && IsRandom(rLength)
      modifies this`time
      ensures Valid()
      ensures time == old(time) + 1
      ensures |f.dots| == |stars|
      ensures forall i :: 0 <= i < |stars| ==> f.dots[i] == Twinkle(stars[i], sines[i])
      ensures f.streak == MaybeStreak(width, height, rChance, rx, ry, rLength)
    {
      time := time + 1;
      var dots: seq<Dot> := [];
      var i := 0;
      while i < |stars|
        invariant 0 <= i <= |stars|
        invariant |dots| == i
        invariant forall k :: 0 <= k < i ==> dots[k] == Twinkle(stars[k], sines[k])
      {
        dots := dots + [Twinkle(stars[i], sines[i])];
        i := i + 1;
      }
      f := Frame(dots, MaybeStreak(width, height, rChance, rx, ry, rLength));
    }
  }

  /** A 1000 by 800 window gets 100 stars. */
  lemma HundredStars()
    ensures StarCount(1000, 800) == 100
  {
  }
}
