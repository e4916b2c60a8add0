/**
 * The layout-level section divider: one of three fixed paths in a 1440 by 100
 * viewBox, coloured by a text-colour class, optionally rotated by 180 degrees.
 */
module LayoutSectionDivider {
  import opened Wrappers
  import opened SvgPath

  /** The `variant` prop; `Unrecognized` is any other value. */
  datatype Variant = Wave | Orbital | Atomic | Unrecognized

  /** `defaultColors[variant]`; an unrecognised variant reads `undefined`. */
  function DefaultColor(v: Variant): Option<string>
  {
    match v
    case Wave => Some("text-retro-orange")
    case Orbital => Some("text-retro-aqua")
    case Atomic => Some("text-retro-mustard")
    case Unrecognized => None
  }

  /** `color || defaultColors[variant]`: a non-empty `color` wins. */
  function TextColor(v: Variant, color: string): Option<string>
  {
    if color != "" then Some(color) else DefaultColor(v)
  }

  /** The `transform` attribute of the path. */
  function Transform(flip: bool): string
  {
    if flip then "rotate(180)" else ""
  }

  const WavePath: Path := [M(0.0, 100.0), C(480.0, 0.0, 960.0, 200.0, 1440.0, 100.0), L(1440.0, 0.0), L(0.0, 0.0), Z]
  const OrbitalPath: Path := [M(0.0, 100.0), Q(360.0, 40.0, 720.0, 100.0), T(1440.0, 100.0), L(1440.0, 0.0), L(0.0, 0.0), Z]
  const AtomicPath: Path :=
    [M(0.0, 100.0), Q(180.0, 20.0, 360.0, 100.0), T(720.0, 100.0), T(1080.0, 100.0), T(1440.0, 100.0),
     L(1440.0, 0.0), L(0.0, 0.0), Z]

  /** `renderPath`: the path data of each variant; the default branch repeats the wave. */
  function RenderPath(v: Variant): Path
  {
    match v
    case Wave => WavePath
    case Orbital => OrbitalPath
    case Atomic => AtomicPath
    case Unrecognized => WavePath
  }

  /** The rendered element: viewBox size, text-colour class (None renders as "undefined"), path and transform. */
  datatype LayoutSvg = LayoutSvg(viewBoxWidth: real, viewBoxHeight: real, textColor: Option<string>, d: Path, transform: string)

  function Render(v: Variant, flip: bool, color: string): LayoutSvg
  {
    LayoutSvg(1440.0, 100.0, TextColor(v, color), RenderPath(v), Transform(flip))
  }

  /**
   * The default colours are wave orange, orbital aqua and atomic mustard; a
   * non-empty `color` prop overrides them for every variant.
   */
  lemma ColorChoice(v: Variant, color: string)
    ensures color != "" ==> Render(v, false, color).textColor == Some(color)
    ensures color == "" ==>
              Render(v, false, color).textColor ==
                (match v
                 case Wave => Some("text-retro-orange")
                 case Orbital => Some("text-retro-aqua")
                 case Atomic => Some("text-retro-mustard")
                 case Unrecognized => None)
  {
  }

  /** `flip` gives the transform "rotate(180)", otherwise the empty string; nothing else depends on it. */
  lemma FlipOnlyRotates(v: Variant, color: string, flip: bool)
    ensures Render(v, flip, color).transform == (if flip then "rotate(180)" else "")
    ensures Render(v, flip, color).(transform := "") == Render(v, !flip, color).(transform := "")
  {
  }

  /** An unrecognised variant renders the wave path. */
  lemma UnrecognizedDrawsWave()
    ensures RenderPath(Unrecognized) == RenderPath(Wave)
  {
  }

  /**
   * Every variant's path starts at (0,100) and ends with L1440,0 L0,0 Z, and
   * the viewBox is 1440 by 100 whatever the variant.
   */
  lemma PathFrame(v: Variant, flip: bool, color: string)
    ensures var svg := Render(v, flip, color);
      && svg.viewBoxWidth == 1440.0 && svg.viewBoxHeight == 100.0
      && |svg.d| >= 4 && svg.d[0] == M(0.0, 100.0)
      && svg.d[|svg.d| - 3..] == [L(1440.0, 0.0), L(0.0, 0.0), Z]
  {
  }
}
