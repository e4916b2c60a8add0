/**
 * The portfolio section: featured projects in a large grid with untilted
 * cards, the others in a smaller grid with cards tilted by the parity of the
 * project id's first UTF-16 code unit.
 */
module Portfolio {
  import opened Wrappers
  import opened Sequences
  import opened Utf16

  datatype Tilt = Left | Right | NoTilt

  /** `link` is "" when the project has none (both are falsy); `featured` false when omitted. */
  datatype Project = Project(id: string, title: string, color: string, link: string, featured: bool)

  /** `getTilt`: left for an even first code unit, right otherwise (NaN included). */
  function GetTilt(id: string): (t: Tilt)
    ensures t != NoTilt
    ensures t == Left <==> FirstCodeUnit(id).Some? && FirstCodeUnit(id).value % 2 == 0
  {
    var code := FirstCodeUnit(id);
    if code.Some? && code.value % 2 == 0 then Left else Right
  }

  /** `projects.filter(p => p.featured == want)`. */
  function Select(ps: seq<Project>, want: bool): (r: seq<Project>)
    ensures |r| <= |ps|
    ensures forall i :: 0 <= i < |r| ==> r[i].featured == want && r[i] in ps
  {
    if |ps| == 0 then []
    else if ps[0].featured == want then [ps[0]] + Select(ps[1..], want)
    else Select(ps[1..], want)
  }

  lemma {:induction false} SelectCounts(ps: seq<Project>)
    ensures multiset(Select(ps, true)) + multiset(Select(ps, false)) == multiset(ps)
  {
    if |ps| > 0 {
      var x, rest := ps[0], ps[1..];
      SelectCounts(rest);
      assert ps == [x] + rest;
    }
  }

  lemma {:induction false} SelectKeepsOrder(ps: seq<Project>, want: bool)
    ensures Subsequence(Select(ps, want), ps)
  {
    if |ps| > 0 {
      var x, rest := ps[0], ps[1..];
      SelectKeepsOrder(rest, want);
      assert ps == [x] + rest;
      SubsequenceCons(x, Select(rest, want), rest);
    }
  }

  /**
   * The featured and the non-featured grids split the projects between them:
   * together they hold every project exactly once, each in list order.
   */
  lemma GridsPartition(ps: seq<Project>)
    ensures multiset(Select(ps, true)) + multiset(Select(ps, false)) == multiset(ps)
    ensures |Select(ps, true)| + |Select(ps, false)| == |ps|
    ensures Subsequence(Select(ps, true), ps) && Subsequence(Select(ps, false), ps)
  {
    SelectCounts(ps);
    assert |multiset(Select(ps, true))| + |multiset(Select(ps, false))| == |multiset(ps)|;
    SelectKeepsOrder(ps, true);
    SelectKeepsOrder(ps, false);
  }

  /** One project card: its tilt and whether it shows a "View Project" button. */
  datatype Card = Card(project: Project, tilt: Tilt, viewButton: bool)

  function FeaturedCard(p: Project): Card
  {
    Card(p, NoTilt, p.link != "")
  }

  function GridCard(p: Project): Card
  {
    Card(p, GetTilt(p.id), p.link != "")
  }

  datatype Section = Section(featured: seq<Card>, grid: seq<Card>)

  function Render(ps: seq<Project>): (s: Section)
    ensures |s.featured| == |Select(ps, true)| && |s.grid| == |Select(ps, false)|
    ensures forall i :: 0 <= i < |s.featured| ==> s.featured[i] == FeaturedCard(Select(ps, true)[i])
    ensures forall i :: 0 <= i < |s.grid| ==> s.grid[i] == GridCard(Select(ps, false)[i])
  {
    var f, g := Select(ps, true), Select(ps, false);
    Section(seq(|f|, i requires 0 <= i < |f| => FeaturedCard(f[i])),
            seq(|g|, i requires 0 <= i < |g| => GridCard(g[i])))
  }

  /**
   * Featured cards are never tilted, grid cards always are; a card shows the
   * "View Project" button exactly when its project has a link.
   */
  lemma CardRules(ps: seq<Project>)
    ensures var s := Render(ps);
      && (forall i :: 0 <= i < |s.featured| ==> s.featured[i].tilt == NoTilt && s.featured[i].project.featured)
      && (forall i :: 0 <= i < |s.grid| ==> s.grid[i].tilt != NoTilt && !s.grid[i].project.featured)
      && (forall c :: c in s.featured + s.grid ==> (c.viewButton <==> c.project.link != ""))
  {
  }

  /** The site's two projects, both featured with links. */
  const Projects: seq<Project> := [
    Project("encorelando", "encorelando", "coral", "https://encorelando.com", true),
    Project("lake-wilson", "Lake Wilson Preserve", "aqua", "https://lakewilsonpreserve.com", true)
  ]

  /** On the site, both projects are in the featured grid with a button and the other grid is empty. */
  lemma SiteSection()
    ensures Render(Projects).grid == []
    ensures |Render(Projects).featured| == 2
    ensures forall c :: c in Render(Projects).featured ==> c.viewButton && c.tilt == NoTilt
  {
  }

  /** 'e' (101) is odd and 'l' (108) even, so tilting the site's ids would give right and left. */
  lemma SiteTilts()
    ensures GetTilt("encorelando") == Right && GetTilt("lake-wilson") == Left
    ensures GetTilt("") == Right
  {
  }
}
