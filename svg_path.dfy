/**
 * SVG path data as a list of commands over exact real coordinates, shared by
 * the divider components. Every divider is drawn in a box 1440 units wide.
 */
module SvgPath {

  /** Absolute SVG path commands: move, line, cubic and quadratic Bezier, smooth quadratic, close. */
  datatype Cmd =
    | M(x: real, y: real)
    | L(x: real, y: real)
    | C(x1: real, y1: real, x2: real, y2: real, x: real, y: real)
    | Q(x1: real, y1: real, x: real, y: real)
    | T(x: real, y: real)
    | Z

  type Path = seq<Cmd>

  /** Logical width of every divider's viewBox. */
  const Width: real := 1440.0

  /** The command with every y coordinate replaced by h - y; letters and x values untouched. */
  function MirrorCmd(c: Cmd, h: real): (r: Cmd)
    ensures r.M? == c.M? && r.L? == c.L? && r.C? == c.C? && r.Q? == c.Q? && r.T? == c.T? && r.Z? == c.Z?
    ensures !c.Z? ==> r.x == c.x && r.y == h - c.y
    ensures c.C? ==> r.x1 == c.x1 && r.x2 == c.x2 && r.y1 == h - c.y1 && r.y2 == h - c.y2
    ensures c.Q? ==> r.x1 == c.x1 && r.y1 == h - c.y1
  {
    match c
    case M(x, y) => M(x, h - y)
    case L(x, y) => L(x, h - y)
    case C(x1, y1, x2, y2, x, y) => C(x1, h - y1, x2, h - y2, x, h - y)
    case Q(x1, y1, x, y) => Q(x1, h - y1, x, h - y)
    case T(x, y) => T(x, h - y)
    case Z => Z
  }

  /** The path mirrored vertically inside a box of height h. */
  function Mirror(p: Path, h: real): (r: Path)
    ensures |r| == |p|
    ensures forall i :: 0 <= i < |p| ==> r[i] == MirrorCmd(p[i], h)
  {
    seq(|p|, i requires 0 <= i < |p| => MirrorCmd(p[i], h))
  }

  /** Mirroring twice gives back the original path. */
  lemma MirrorInvolutive(p: Path, h: real)
    ensures Mirror(Mirror(p, h), h) == p
  {
    var q := Mirror(Mirror(p, h), h);
    forall i | 0 <= i < |p| ensures q[i] == p[i] {
      match p[i]
      case M(_, _) =>
      case L(_, _) =>
      case C(_, _, _, _, _, _) =>
      case Q(_, _, _, _) =>
      case T(_, _) =>
      case Z =>
    }
  }

  predicate InRange(v: real, lo: real, hi: real) { lo <= v <= hi }

  /** Every coordinate of the command lies inside the 0..w by 0..h box. */
  predicate CmdInBox(c: Cmd, w: real, h: real)
  {
    match c
    case M(x, y) => InRange(x, 0.0, w) && InRange(y, 0.0, h)
    case L(x, y) => InRange(x, 0.0, w) && InRange(y, 0.0, h)
    case C(x1, y1, x2, y2, x, y) =>
      InRange(x1, 0.0, w) && InRange(y1, 0.0, h) && InRange(x2, 0.0, w) && InRange(y2, 0.0, h)
      && InRange(x, 0.0, w) && InRange(y, 0.0, h)
    case Q(x1, y1, x, y) => InRange(x1, 0.0, w) && InRange(y1, 0.0, h) && InRange(x, 0.0, w) && InRange(y, 0.0, h)
    case T(x, y) => InRange(x, 0.0, w) && InRange(y, 0.0, h)
    case Z => true
  }

  predicate InBox(p: Path, w: real, h: real)
  {
    forall i :: 0 <= i < |p| ==> CmdInBox(p[i], w, h)
  }

  /** A path inside the box stays inside it when mirrored. */
  lemma MirrorInBox(p: Path, w: real, h: real)
    requires InBox(p, w, h)
    ensures InBox(Mirror(p, h), w, h)
  {
    forall i | 0 <= i < |p| ensures CmdInBox(Mirror(p, h)[i], w, h) {
      assert CmdInBox(p[i], w, h);
    }
  }

  /** A well-formed path begins with a move and ends with the close command. */
  predicate StartsAndCloses(p: Path)
  {
    |p| >= 2 && p[0].M? && p[|p| - 1] == Z
  }
}
