/**
 * The starburst decoration: a closed polygon alternating between an outer and
 * an inner radius over 2N equally spaced vertices, an optional smaller burst
 * inside it, and a centre circle. Vertices are kept in polar form (radius and
 * angle as a multiple of pi), so cosine and sine stay uninterpreted.
 */
module StarburstDecoration {
  import opened Wrappers

  /** One command of the path string: "M x y ", "L x y " or the final "Z". */
  datatype StarCmd = MoveTo(radius: real, anglePi: real) | LineTo(radius: real, anglePi: real) | Close

  /** The number of vertices the loop emits for `points`: 2N, and none when N <= 0. */
  function VertexCount(points: int): nat
  {
    if points > 0 then 2 * points else 0
  }

  /** The path of `points` points: 2N vertices, the first a move, the rest lines, then Z;
      vertex i has the outer radius when i is even, the inner one when odd, and
      lies at angle i * (2 pi / 2N) = i * pi / N. */
  ghost predicate IsStarburst(path: seq<StarCmd>, points: int, innerR: real, outerR: real)
  {
    && |path| == VertexCount(points) + 1
    && path[|path| - 1] == Close
    && (forall i :: 0 <= i < |path| - 1 ==> !path[i].Close?)
    && (forall i :: 0 <= i < |path| - 1 ==> (path[i].MoveTo? <==> i == 0))
    && (forall i :: 0 <= i < |path| - 1 ==> path[i].radius == if i % 2 == 0 then outerR else innerR)
    && (forall i :: 0 <= i < |path| - 1 ==> path[i].anglePi * points as real == i as real)
  }

  /** `createStarburstPoints`: the loop that appends one vertex per step, then closes the path. */
  method CreateStarburstPoints(points: int, innerR: real, outerR: real) returns (path: seq<StarCmd>)
    ensures IsStarburst(path, points, innerR, outerR)
  {
    path := [];
    var i := 0;
    while i < points * 2
      invariant 0 <= i && (points > 0 ==> i <= 2 * points) && (points <= 0 ==> i == 0)
      invariant |path| == i
      invariant forall j :: 0 <= j < i ==> !path[j].Close? && (path[j].MoveTo? <==> j == 0)
      invariant forall j :: 0 <= j < i ==> path[j].radius == if j % 2 == 0 then outerR else innerR
      invariant forall j :: 0 <= j < i ==> path[j].anglePi * points as real == j as real
    {
      var angleStep := 2.0 / (points * 2) as real;
      var radius := if i % 2 == 0 then outerR else innerR;
      var angle := i as real * angleStep;
      if i == 0 {
        path := path + [MoveTo(radius, angle)];
      } else {
        path := path + [LineTo(radius, angle)];
      }
      i := i + 1;
    }
    path := path + [Close];
  }

  /** What the component draws, besides its colour classes. */
  datatype StarburstSvg = StarburstSvg(
    colorClass: string,
    main: seq<StarCmd>,
    secondary: Option<seq<StarCmd>>,
    centerRadius: real,
    centerFill: string)

  /** The main burst, the secondary burst when `secondaryColor` is given (non-empty), and the centre circle. */
  method Render(pointCount: int, innerRadius: real, outerRadius: real, color: string, secondaryColor: string)
    returns (svg: StarburstSvg)
    ensures svg.colorClass == "text-" + color
    ensures IsStarburst(svg.main, pointCount, innerRadius, outerRadius)
    ensures svg.secondary.Some? <==> secondaryColor != ""
    ensures svg.secondary.Some? ==> IsStarburst(svg.secondary.value, pointCount, innerRadius * 0.3, innerRadius * 0.8)
    ensures svg.centerRadius == 0.4 * innerRadius
    ensures svg.centerFill == if secondaryColor != "" then "var(--tw-" + secondaryColor + ")" else "white"
  {
    var main := CreateStarburstPoints(pointCount, innerRadius, outerRadius);
    var secondary := None;
    if secondaryColor != "" {
      var inner := CreateStarburstPoints(pointCount, innerRadius * 0.3, innerRadius * 0.8);
      secondary := Some(inner);
    }
    var fill := if secondaryColor != "" then "var(--tw-" + secondaryColor + ")" else "white";
    svg := StarburstSvg("text-" + color, main, secondary, innerRadius * 0.4, fill);
  }

  /** With no points the path is exactly "Z". */
  lemma NoPointsJustCloses(path: seq<StarCmd>, points: int, innerR: real, outerR: real)
    requires points <= 0 && IsStarburst(path, points, innerR, outerR)
    ensures path == [Close]
  {
  }

  /** With N > 0 points the path has exactly 2N vertex commands: one move and 2N - 1 lines. */
  lemma VertexCommands(path: seq<StarCmd>, points: int, innerR: real, outerR: real)
    requires points > 0 && IsStarburst(path, points, innerR, outerR)
    ensures path[0].MoveTo?
    ensures forall i :: 1 <= i < 2 * points ==> path[i].LineTo?
    ensures |path| == 2 * points + 1
  {
  }
}
