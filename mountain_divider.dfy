/**
 * The mountain divider: two constant ridge paths in a 1440 by 64 viewBox,
 * chosen by `inverted`, filled with `fromColor` over a `toColor` background.
 */
module MountainDivider {
  import opened SvgPath

  const ViewBoxHeight: real := 64.0

  /** The path drawn when `inverted` is false. */
  const Upright: Path :=
    [M(0.0, 0.0), L(60.0, 25.6), L(120.0, 12.8), L(180.0, 28.8), L(240.0, 12.8), L(300.0, 32.0),
     L(360.0, 16.0), L(420.0, 36.8), L(480.0, 20.8), L(540.0, 28.8), L(600.0, 10.4), L(660.0, 32.0),
     L(720.0, 16.0), L(780.0, 25.6), L(840.0, 8.0), L(900.0, 36.8), L(960.0, 20.8), L(1020.0, 28.8),
     L(1080.0, 12.8), L(1140.0, 32.0), L(1200.0, 16.0), L(1260.0, 25.6), L(1320.0, 8.0), L(1380.0, 28.8),
     L(1440.0, 20.8), L(1440.0, 64.0), L(0.0, 64.0), Z]

  /** The path drawn when `inverted` is true. */
  const Inverted: Path :=
    [M(0.0, 64.0), L(60.0, 38.4), L(120.0, 51.2), L(180.0, 35.2), L(240.0, 51.2), L(300.0, 32.0),
     L(360.0, 48.0), L(420.0, 27.2), L(480.0, 43.2), L(540.0, 35.2), L(600.0, 53.6), L(660.0, 32.0),
     L(720.0, 48.0), L(780.0, 38.4), L(840.0, 56.0), L(900.0, 27.2), L(960.0, 43.2), L(1020.0, 35.2),
     L(1080.0, 51.2), L(1140.0, 32.0), L(1200.0, 48.0), L(1260.0, 38.4), L(1320.0, 56.0), L(1380.0, 35.2),
     L(1440.0, 43.2), L(1440.0, 0.0), L(0.0, 0.0), Z]

  /** The class of the path (`fill-current text-<fromColor>`), its data, and the container's background class. */
  datatype MountainSvg = MountainSvg(background: string, pathClass: string, d: Path)

  function Render(inverted: bool, fromColor: string, toColor: string): MountainSvg
  {
    if inverted then MountainSvg("bg-" + toColor, "fill-current text-" + fromColor, Inverted)
    else MountainSvg("bg-" + toColor, "fill-current text-" + fromColor, Upright)
  }

  /** The inverted constant is exactly the y -> 64 - y mirror of the upright one (25.6 and 38.4, 10.4 and 53.6, ...). */
  lemma InvertedIsMirror()
    ensures Inverted == Mirror(Upright, ViewBoxHeight)
  {
    assert Inverted == Mirror(Upright, ViewBoxHeight);
  }

  predicate RidgeAt60(p: Path)
  {
    |p| == 28 && forall k :: 1 <= k <= 24 ==> p[k].L? && p[k].x == 60.0 * k as real
  }

  /** Both paths have 24 ridge vertices at x = 60k, k = 1..24. */
  lemma RidgeVertices()
    ensures RidgeAt60(Upright) && RidgeAt60(Inverted)
  {
    forall k | 1 <= k <= 24 ensures Upright[k].L? && Upright[k].x == 60.0 * k as real {
    }
    forall k | 1 <= k <= 24 ensures Inverted[k].x == Upright[k].x && Inverted[k].L?{
      InvertedIsMirror();
    }
  }

  /** Every coordinate lies in the 1440 by 64 viewBox. */
  lemma InViewBox()
    ensures InBox(Upright, Width, ViewBoxHeight) && InBox(Inverted, Width, ViewBoxHeight)
  {
    assert forall c | c in Upright :: CmdInBox(c, Width, ViewBoxHeight);
    forall i | 0 <= i < |Upright| ensures CmdInBox(Upright[i], Width, ViewBoxHeight) {
      assert Upright[i] in Upright;
    }
    InvertedIsMirror();
    MirrorInBox(Upright, Width, ViewBoxHeight);
  }

  /** Upright starts at (0,0) and closes along y = 64; inverted starts at (0,64) and closes along y = 0. */
  lemma StartAndClose()
    ensures Upright[0] == M(0.0, 0.0) && Upright[25..] == [L(1440.0, 64.0), L(0.0, 64.0), Z]
    ensures Inverted[0] == M(0.0, 64.0) && Inverted[25..] == [L(1440.0, 0.0), L(0.0, 0.0), Z]
  {
  }

  /** Both branches fill the path with `fromColor` and give the container `toColor`. */
  lemma ColorsInBothBranches(inverted: bool, fromColor: string, toColor: string)
    ensures var svg := Render(inverted, fromColor, toColor);
      svg.pathClass == "fill-current text-" + fromColor && svg.background == "bg-" + toColor
      && svg.d == (if inverted then Inverted else Upright)
  {
  }
}
