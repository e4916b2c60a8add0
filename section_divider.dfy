/**
 * The atoms-level section divider: an SVG band 1440 units wide whose height
 * comes from a size bucket, drawn as one of five shapes, optionally inverted,
 * and filled with a colour class or a two-stop vertical gradient.
 */
module SectionDivider {
  import opened Wrappers
  import opened SvgPath

  /** The `height` prop. */
  datatype Height = Sm | Md | Lg

  /** The `type` prop; `Unrecognized` is any other value reaching the switch. */
  datatype Kind = Wave | Angle | Curve | Mountains | Atomic | Unrecognized

  /** The pixel height of each bucket. */
  function HeightValue(h: Height): (v: real)
    ensures v > 0.0
  {
    match h
    case Sm => 48.0
    case Md => 64.0
    case Lg => 96.0
  }

  /** The wave shape: five cubic segments along the top, then back along the flat edge. */
  function WavePath(h: real, inverted: bool): Path
  {
    if inverted then
      [M(0.0, h), L(48.0, h * 0.83),
       C(96.0, h * 0.67, 192.0, h * 0.5, 288.0, h * 0.58),
       C(384.0, h * 0.67, 480.0, h * 0.83, 576.0, h * 0.92),
       C(672.0, h, 768.0, h, 864.0, h * 0.92),
       C(960.0, h * 0.83, 1056.0, h * 0.67, 1152.0, h * 0.5),
       C(1248.0, h * 0.33, 1344.0, h * 0.17, 1392.0, h * 0.08),
       L(1440.0, 0.0), L(1440.0, h), L(1392.0, h),
       C(1344.0, h, 1248.0, h, 1152.0, h),
       C(1056.0, h, 960.0, h, 864.0, h),
       C(768.0, h, 672.0, h, 576.0, h),
       C(480.0, h, 384.0, h, 288.0, h),
       C(192.0, h, 96.0, h, 48.0, h),
       L(0.0, h), Z]
    else
      [M(0.0, 0.0), L(48.0, h * 0.17),
       C(96.0, h * 0.33, 192.0, h * 0.5, 288.0, h * 0.42),
       C(384.0, h * 0.33, 480.0, h * 0.17, 576.0, h * 0.08),
       C(672.0, 0.0, 768.0, 0.0, 864.0, h * 0.08),
       C(960.0, h * 0.17, 1056.0, h * 0.33, 1152.0, h * 0.5),
       C(1248.0, h * 0.67, 1344.0, h * 0.83, 1392.0, h * 0.92),
       L(1440.0, h), L(1440.0, 0.0), L(1392.0, 0.0),
       C(1344.0, 0.0, 1248.0, 0.0, 1152.0, 0.0),
       C(1056.0, 0.0, 960.0, 0.0, 864.0, 0.0),
       C(768.0, 0.0, 672.0, 0.0, 576.0, 0.0),
       C(480.0, 0.0, 384.0, 0.0, 288.0, 0.0),
       C(192.0, 0.0, 96.0, 0.0, 48.0, 0.0),
       L(0.0, 0.0), Z]
  }

  /** The angle shape: one diagonal edge. */
  function AnglePath(h: real, inverted: bool): Path
  {
    if inverted then [M(0.0, h), L(1440.0, 0.0), L(1440.0, h), L(0.0, h), Z]
    else [M(0.0, 0.0), L(1440.0, h), L(1440.0, 0.0), L(0.0, 0.0), Z]
  }

  /** The curve shape: one cubic arch whose control points sit at 0.9 H (0.1 H when inverted). */
  function CurvePath(h: real, inverted: bool): Path
  {
    if inverted then [M(0.0, h), C(360.0, h * 0.1, 1080.0, h * 0.1, 1440.0, h), L(1440.0, 0.0), L(0.0, 0.0), Z]
    else [M(0.0, 0.0), C(360.0, h * 0.9, 1080.0, h * 0.9, 1440.0, 0.0), L(1440.0, h), L(0.0, h), Z]
  }

  /** The 24 ridge heights of the mountains shape, as fractions of H, upright and inverted. */
  const MountainsUp: seq<real> :=
    [0.4, 0.2, 0.35, 0.15, 0.35, 0.25, 0.45, 0.3, 0.4, 0.15, 0.35, 0.2,
     0.3, 0.1, 0.4, 0.25, 0.35, 0.2, 0.4, 0.25, 0.35, 0.2, 0.3, 0.15]
  const MountainsDown: seq<real> :=
    [0.6, 0.8, 0.65, 0.85, 0.65, 0.75, 0.55, 0.7, 0.6, 0.85, 0.65, 0.8,
     0.7, 0.9, 0.6, 0.75, 0.65, 0.8, 0.6, 0.75, 0.65, 0.8, 0.7, 0.85]

  /** The 24 ridge heights of the atomic shape, upright and inverted. */
  const AtomicUp: seq<real> :=
    [0.6, 0.3, 0.7, 0.2, 0.8, 0.4, 0.9, 0.5, 0.7, 0.3, 0.8, 0.4,
     0.6, 0.2, 0.9, 0.5, 0.7, 0.3, 0.8, 0.4, 0.6, 0.2, 0.7, 0.5]
  const AtomicDown: seq<real> :=
    [0.4, 0.7, 0.3, 0.8, 0.2, 0.6, 0.1, 0.5, 0.3, 0.7, 0.2, 0.6,
     0.4, 0.8, 0.1, 0.5, 0.3, 0.7, 0.2, 0.6, 0.4, 0.8, 0.3, 0.5]

  /** The ridge vertex above x = 60(k+1). */
  function RidgeVertex(h: real, fr: seq<real>, k: nat): Cmd
    requires k < |fr|
  {
    L(60.0 * (k + 1) as real, h * fr[k])
  }

  /** Line commands to (60(k+1), h * fr[k]) for each ridge fraction. */
  function Ridge(h: real, fr: seq<real>): (r: Path)
    ensures |r| == |fr|
    ensures forall k :: 0 <= k < |fr| ==> r[k] == RidgeVertex(h, fr, k)
  {
    seq(|fr|, k requires 0 <= k < |fr| => RidgeVertex(h, fr, k))
  }

  /** A ridge shape: start on one edge, 24 ridge vertices, close along the other edge. */
  function RidgePath(h: real, inverted: bool, up: seq<real>, down: seq<real>): Path
  {
    if inverted then [M(0.0, h)] + Ridge(h, down) + [L(1440.0, 0.0), L(0.0, 0.0), Z]
    else [M(0.0, 0.0)] + Ridge(h, up) + [L(1440.0, h), L(0.0, h), Z]
  }

  /** `getPath`: the path of each kind; an unrecognised kind gives the empty path. */
  function GetPath(kind: Kind, height: Height, inverted: bool): Path
  {
    var h := HeightValue(height);
    match kind
    case Wave => WavePath(h, inverted)
    case Angle => AnglePath(h, inverted)
    case Curve => CurvePath(h, inverted)
    case Mountains => RidgePath(h, inverted, MountainsUp, MountainsDown)
    case Atomic => RidgePath(h, inverted, AtomicUp, AtomicDown)
    case Unrecognized => []
  }

  // ---------------------------------------------------------------------------
  // Geometry of the paths

  predicate Fractions(fr: seq<real>)
  {
    forall k :: 0 <= k < |fr| ==> 0.0 <= fr[k] <= 1.0
  }

  /** The inverted ridge table of both ridge kinds is the upright one taken from 1. */
  lemma RidgeTablesComplement()
    ensures |MountainsUp| == |MountainsDown| == |AtomicUp| == |AtomicDown| == 24
    ensures forall k :: 0 <= k < 24 ==> MountainsDown[k] == 1.0 - MountainsUp[k]
    ensures forall k :: 0 <= k < 24 ==> AtomicDown[k] == 1.0 - AtomicUp[k]
    ensures Fractions(MountainsUp) && Fractions(AtomicUp)
  {
  }

  lemma RidgeMirror(h: real, up: seq<real>, down: seq<real>)
    requires |up| == |down|
    requires forall k :: 0 <= k < |up| ==> down[k] == 1.0 - up[k]
    ensures RidgePath(h, true, up, down) == Mirror(RidgePath(h, false, up, down), h)
  {
    var a, b := RidgePath(h, true, up, down), Mirror(RidgePath(h, false, up, down), h);
    assert |a| == |b|;
    forall i | 0 <= i < |a| ensures a[i] == b[i] {
      if 1 <= i <= |up| {
        assert a[i] == RidgeVertex(h, down, i - 1);
        assert RidgePath(h, false, up, down)[i] == RidgeVertex(h, up, i - 1);
      }
    }
  }

  lemma WaveMirror(h: real)
    ensures WavePath(h, true) == Mirror(WavePath(h, false), h)
  {
    var a, b := WavePath(h, true), Mirror(WavePath(h, false), h);
    forall i | 0 <= i < |a| ensures a[i] == b[i] {
    }
  }

  lemma CurveMirror(h: real)
    ensures CurvePath(h, true) == Mirror(CurvePath(h, false), h)
  {
    assert CurvePath(h, true) == Mirror(CurvePath(h, false), h);
  }

  /**
   * For every kind and height, the inverted path is the upright path with each
   * y replaced by H - y, command letters and x values unchanged.
   */
  lemma InvertedIsMirror(kind: Kind, height: Height)
    ensures GetPath(kind, height, true) == Mirror(GetPath(kind, height, false), HeightValue(height))
  {
    var h := HeightValue(height);
    RidgeTablesComplement();
    match kind
    case Wave => WaveMirror(h);
    case Angle =>
    case Curve => CurveMirror(h);
    case Mountains => RidgeMirror(h, MountainsUp, MountainsDown);
    case Atomic => RidgeMirror(h, AtomicUp, AtomicDown);
    case Unrecognized =>
  }

  lemma RidgeInBox(h: real, fr: seq<real>)
    requires h >= 0.0 && Fractions(fr) && |fr| == 24
    ensures InBox([M(0.0, 0.0)] + Ridge(h, fr) + [L(1440.0, h), L(0.0, h), Z], 1440.0, h)
  {
    var p := [M(0.0, 0.0)] + Ridge(h, fr) + [L(1440.0, h), L(0.0, h), Z];
    forall i | 0 <= i < |p| ensures CmdInBox(p[i], 1440.0, h) {
      if 1 <= i <= 24 {
        assert p[i] == RidgeVertex(h, fr, i - 1);
        assert 0.0 <= h * fr[i - 1] <= h by {
          assert 0.0 <= fr[i - 1] <= 1.0;
        }
      }
    }
  }

  lemma WaveInBox(h: real)
    requires h >= 0.0
    ensures InBox(WavePath(h, false), 1440.0, h)
  {
    var p := WavePath(h, false);
    forall i | 0 <= i < |p| ensures CmdInBox(p[i], 1440.0, h) {
    }
  }

  lemma UprightInBox(kind: Kind, height: Height)
    ensures InBox(GetPath(kind, height, false), 1440.0, HeightValue(height))
  {
    var h := HeightValue(height);
    RidgeTablesComplement();
    match kind
    case Wave => WaveInBox(h);
    case Angle =>
    case Curve =>
    case Mountains => RidgeInBox(h, MountainsUp);
    case Atomic => RidgeInBox(h, AtomicUp);
    case Unrecognized =>
  }

  /** Every coordinate of every generated path lies in the 1440 by H box. */
  lemma PathInBox(kind: Kind, height: Height, inverted: bool)
    ensures InBox(GetPath(kind, height, inverted), 1440.0, HeightValue(height))
  {
    UprightInBox(kind, height);
    if inverted {
      InvertedIsMirror(kind, height);
      MirrorInBox(GetPath(kind, height, false), 1440.0, HeightValue(height));
    }
  }

  /** Upright paths start at (0,0), inverted ones at (0,H); every recognised path ends with Z. */
  lemma PathEnds(kind: Kind, height: Height, inverted: bool)
    requires kind != Unrecognized
    ensures var p := GetPath(kind, height, inverted);
      StartsAndCloses(p) && p[0] == (if inverted then M(0.0, HeightValue(height)) else M(0.0, 0.0))
  {
  }

  /** An unrecognised kind draws nothing. */
  lemma UnrecognizedIsEmpty(height: Height, inverted: bool)
    ensures GetPath(Unrecognized, height, inverted) == []
  {
  }

  /**
   * The mountains and atomic paths have 24 ridge vertices at x = 60k for
   * k = 1..24, then two closing line segments along the opposite edge, then Z.
   */
  lemma RidgeShape(kind: Kind, height: Height, inverted: bool)
    requires kind == Mountains || kind == Atomic
    ensures var p := GetPath(kind, height, inverted); var h := HeightValue(height);
      && |p| == 28
      && (forall k :: 1 <= k <= 24 ==> p[k].L? && p[k].x == 60.0 * k as real)
      && p[25] == L(1440.0, if inverted then 0.0 else h)
      && p[26] == L(0.0, if inverted then 0.0 else h)
      && p[27] == Z
  {
    var h := HeightValue(height);
    assert |MountainsUp| == |MountainsDown| == |AtomicUp| == |AtomicDown| == 24;
    if kind == Mountains {
      RidgePathShape(h, inverted, MountainsUp, MountainsDown);
    } else {
      RidgePathShape(h, inverted, AtomicUp, AtomicDown);
    }
  }

  /** The layout of a ridge path over any pair of 24-entry tables. */
  lemma RidgePathShape(h: real, inverted: bool, up: seq<real>, down: seq<real>)
    requires |up| == |down| == 24
    ensures var p := RidgePath(h, inverted, up, down);
      && |p| == 28
      && (forall k :: 1 <= k <= 24 ==> p[k].L? && p[k].x == 60.0 * k as real)
      && p[25] == L(1440.0, if inverted then 0.0 else h)
      && p[26] == L(0.0, if inverted then 0.0 else h)
      && p[27] == Z
  {
    var p := RidgePath(h, inverted, up, down);
    var fr := if inverted then down else up;
    assert p == [M(0.0, if inverted then h else 0.0)] + Ridge(h, fr)
                + [L(1440.0, if inverted then 0.0 else h), L(0.0, if inverted then 0.0 else h), Z];
    forall k | 1 <= k <= 24 ensures p[k].L? && p[k].x == 60.0 * k as real {
      assert p[k] == Ridge(h, fr)[k - 1];
    }
  }

  // ---------------------------------------------------------------------------
  // Colours

  /** The colour names that have their own fill class. */
  const Palette: set<string> := {"cream", "aqua", "mustard", "coral", "teal", "charcoal"}

  /** `getFillColor`: the switch over the six colours, with cream as the fallback. */
  function GetFillColor(fillColor: string): (cls: string)
    ensures cls == "fill-" + (if fillColor in Palette then fillColor else "cream")
  {
    match fillColor
    case "cream" => "fill-cream"
    case "aqua" => "fill-aqua"
    case "mustard" => "fill-mustard"
    case "coral" => "fill-coral"
    case "teal" => "fill-teal"
    case "charcoal" => "fill-charcoal"
    case _ => "fill-cream"
  }

  /** A vertical linear gradient with its two stops (0% and 100%). */
  datatype Gradient = Gradient(id: string, fromStop: string, toStop: string)

  /** `getGradientId`. */
  function GradientId(fillColor: string, toColor: string): string
  {
    "gradient-" + fillColor + "-" + toColor
  }

  /** `getGradient`; a `toColor` of "" models the prop being absent (both are falsy). */
  function GetGradient(fillColor: string, toColor: string): Option<Gradient>
  {
    if toColor == "" || toColor == fillColor then None
    else Some(Gradient(GradientId(fillColor, toColor), fillColor, toColor))
  }

  /** `getFill`: the value of the path's `fill` attribute. */
  function GetFill(fillColor: string, toColor: string): Option<string>
  {
    if toColor != "" && toColor != fillColor then Some("url(#" + GradientId(fillColor, toColor) + ")")
    else None
  }

  /** The class list of the `svg` element. */
  function SvgClass(fillColor: string, toColor: string): string
  {
    "w-full h-full " + (if toColor != "" then "" else GetFillColor(fillColor))
  }

  /** What the component renders, reduced to the attributes the props decide. */
  datatype DividerSvg = DividerSvg(
    svgClass: string,
    viewBoxWidth: real,
    viewBoxHeight: real,
    gradient: Option<Gradient>,
    d: Path,
    fill: Option<string>)

  function Render(kind: Kind, inverted: bool, fillColor: string, toColor: string, height: Height): DividerSvg
  {
    DividerSvg(SvgClass(fillColor, toColor), 1440.0, HeightValue(height),
               GetGradient(fillColor, toColor), GetPath(kind, height, inverted), GetFill(fillColor, toColor))
  }

  /** The bucket heights are 48/64/96 and the viewBox height is the bucket's value. */
  lemma ViewBoxMatchesHeight(kind: Kind, inverted: bool, fillColor: string, toColor: string, height: Height)
    ensures var svg := Render(kind, inverted, fillColor, toColor, height);
      && svg.viewBoxWidth == Width
      && svg.viewBoxHeight == (match height case Sm => 48.0 case Md => 64.0 case Lg => 96.0)
      && svg.d == GetPath(kind, height, inverted)
  {
  }

  /**
   * A gradient is defined exactly when `toColor` is set and differs from
   * `fillColor`; exactly then the fill refers to it by id; the gradient runs
   * from `fillColor` at 0% to `toColor` at 100%.
   */
  lemma GradientAndFillAgree(kind: Kind, inverted: bool, fillColor: string, toColor: string, height: Height)
    ensures var svg := Render(kind, inverted, fillColor, toColor, height);
      && (svg.gradient.Some? <==> toColor != "" && toColor != fillColor)
      && (svg.fill.Some? <==> svg.gradient.Some?)
      && (svg.gradient.Some? ==>
            && svg.gradient.value == Gradient("gradient-" + fillColor + "-" + toColor, fillColor, toColor)
            && svg.fill.value == "url(#" + svg.gradient.value.id + ")")
  {
  }

  /**
   * The fill class is used only when `toColor` is absent; so `toColor == fillColor`
   * gives neither a gradient nor a fill class, and the path has no fill attribute.
   */
  lemma SameColorsNoFill(kind: Kind, inverted: bool, color: string, height: Height)
    requires color != ""
    ensures var svg := Render(kind, inverted, color, color, height);
      svg.gradient.None? && svg.fill.None? && svg.svgClass == "w-full h-full "
  {
  }

  /** With no `toColor` the colour class is applied, and an unknown colour falls back to cream. */
  lemma AbsentToColorUsesClass(kind: Kind, inverted: bool, fillColor: string, height: Height)
    ensures var svg := Render(kind, inverted, fillColor, "", height);
      && svg.gradient.None? && svg.fill.None?
      && svg.svgClass == "w-full h-full fill-" + (if fillColor in Palette then fillColor else "cream")
  {
  }
}
