/**
 * The curve divider: a single cubic arch across a 1440-wide band, filled with
 * `fromColor` over a container whose background is `toColor`.
 */
module CurveDivider {
  import opened SvgPath
  import SectionDivider

  /** This component's own `heightValues` table. */
  function HeightValue(h: SectionDivider.Height): (v: real)
    ensures v == SectionDivider.HeightValue(h)
  {
    match h
    case Sm => 48.0
    case Md => 64.0
    case Lg => 96.0
  }

  /** `getPath`. */
  function GetPath(height: SectionDivider.Height, inverted: bool): Path
  {
    var h := HeightValue(height);
    if inverted then [M(0.0, h), C(360.0, h * 0.1, 1080.0, h * 0.1, 1440.0, h), L(1440.0, 0.0), L(0.0, 0.0), Z]
    else [M(0.0, 0.0), C(360.0, h * 0.9, 1080.0, h * 0.9, 1440.0, 0.0), L(1440.0, h), L(0.0, h), Z]
  }

  /** What the component renders: container background, viewBox, path and its fill. */
  datatype CurveSvg = CurveSvg(background: string, viewBoxWidth: real, viewBoxHeight: real, d: Path, fill: string)

  function Render(inverted: bool, fromColor: string, toColor: string, height: SectionDivider.Height): CurveSvg
  {
    CurveSvg(toColor, 1440.0, HeightValue(height), GetPath(height, inverted), fromColor)
  }

  /** The upright path, written out: M(0,0) C(360,0.9H 1080,0.9H 1440,0) L(1440,H) L(0,H) Z. */
  lemma UprightShape(height: SectionDivider.Height)
    ensures var h := SectionDivider.HeightValue(height);
      GetPath(height, false) == [M(0.0, 0.0), C(360.0, 0.9 * h, 1080.0, 0.9 * h, 1440.0, 0.0), L(1440.0, h), L(0.0, h), Z]
  {
  }

  /** The inverted path is the y -> H - y mirror of the upright one. */
  lemma InvertedIsMirror(height: SectionDivider.Height)
    ensures GetPath(height, true) == Mirror(GetPath(height, false), HeightValue(height))
  {
    assert GetPath(height, true) == Mirror(GetPath(height, false), HeightValue(height));
  }

  /** The same path as the `curve` kind of the atoms section divider. */
  lemma SameAsSectionDividerCurve(height: SectionDivider.Height, inverted: bool)
    ensures GetPath(height, inverted) == SectionDivider.GetPath(SectionDivider.Curve, height, inverted)
  {
  }

  /** The arch is symmetric about x = 720: control points at x = 360 and 1080 share one y, ends at 0 and 1440. */
  lemma ArchSymmetric(height: SectionDivider.Height, inverted: bool)
    ensures var p := GetPath(height, inverted);
      && p[1].C? && p[1].x1 + p[1].x2 == 2.0 * 720.0 && p[1].x1 == 360.0 && p[1].y1 == p[1].y2
      && p[0].x + p[1].x == 2.0 * 720.0 && p[0].y == p[1].y
  {
  }

  /** The path is filled with `fromColor`, the container shows `toColor`, the viewBox is 1440 by H. */
  lemma ColorsAndViewBox(inverted: bool, fromColor: string, toColor: string, height: SectionDivider.Height)
    ensures var svg := Render(inverted, fromColor, toColor, height);
      svg.fill == fromColor && svg.background == toColor
      && svg.viewBoxWidth == Width && svg.viewBoxHeight == SectionDivider.HeightValue(height)
      && InBox(svg.d, Width, svg.viewBoxHeight)
  {
    SectionDivider.PathInBox(SectionDivider.Curve, height, inverted);
  }
}
