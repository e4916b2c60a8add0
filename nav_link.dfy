/**
 * Navigation link: classifies an `href` as external, same-page hash or
 * in-site, and renders exactly one kind of link for it.
 */
module NavLink {

  predicate StartsWith(s: string, prefix: string)
  {
    |prefix| <= |s| && s[..|prefix|] == prefix
  }

  /** `router.pathname === href || router.asPath === href`. */
  predicate IsActive(pathname: string, asPath: string, href: string)
  {
    pathname == href || asPath == href
  }

  /** External links start with "http" (so also "https") or "mailto:". */
  predicate IsExternal(href: string)
  {
    StartsWith(href, "http") || StartsWith(href, "mailto:")
  }

  predicate IsHashLink(href: string)
  {
    StartsWith(href, "#")
  }

  /** The three render branches: an anchor opening a new tab, a plain anchor, and the framework's Link. */
  datatype Branch = ExternalAnchor | HashAnchor | FrameworkLink

  /** The class list's two varying parts: the mobile additions and the active or hover styling. */
  datatype LinkClasses = LinkClasses(mobile: string, state: string)

  datatype RenderedLink = RenderedLink(branch: Branch, href: string, classes: LinkClasses, newTab: bool)

  function Classes(mobile: bool, active: bool): LinkClasses
  {
    LinkClasses(
      if mobile then "text-xl py-4 border-b border-retro-aqua/20" else "",
      if active
      then "text-retro-orange relative after:content-[\"\"] after:absolute after:bottom-0 after:left-1/2 after:-translate-x-1/2 after:w-2 after:h-2 after:bg-retro-orange after:rounded-full"
      else "hover:text-retro-orange")
  }

  /** The branch taken: external first, then hash, then the framework link. */
  function BranchOf(href: string): (b: Branch)
    ensures b == ExternalAnchor <==> IsExternal(href)
    ensures b == HashAnchor <==> !IsExternal(href) && IsHashLink(href)
    ensures b == FrameworkLink <==> !IsExternal(href) && !IsHashLink(href)
  {
    if IsExternal(href) then ExternalAnchor
    else if IsHashLink(href) then HashAnchor
    else FrameworkLink
  }

  /** Exactly one branch renders; only the external anchor opens a new tab. */
  function Render(href: string, pathname: string, asPath: string, mobile: bool): (r: RenderedLink)
    ensures r.branch == BranchOf(href) && r.href == href
    ensures r.newTab <==> IsExternal(href)
  {
    var b := BranchOf(href);
    RenderedLink(b, href, Classes(mobile, IsActive(pathname, asPath, href)), b == ExternalAnchor)
  }

  /** No href is both external and a hash link, so the order of the first two tests never matters. */
  lemma ExternalAndHashDisjoint(href: string)
    ensures !(IsExternal(href) && IsHashLink(href))
  {
    if IsExternal(href) {
      assert href[0] == 'h' || href[0] == 'm' by {
        if StartsWith(href, "http") { assert href[..4][0] == href[0]; }
        else { assert href[..7][0] == href[0]; }
      }
    }
    if IsHashLink(href) {
      assert href[..1][0] == href[0];
    }
  }

  /** Every "https" link is external, and so is every "mailto:" link. */
  lemma HttpsIsExternal(href: string)
    requires StartsWith(href, "https") || StartsWith(href, "mailto:")
    ensures Render(href, "", "", false).branch == ExternalAnchor
  {
    if StartsWith(href, "https") {
      assert href[..4] == href[..5][..4];
    }
  }

  /** The mobile flag only adds classes: it never changes the branch, the target or the active styling. */
  lemma MobileOnlyAddsClasses(href: string, pathname: string, asPath: string)
    ensures var a, b := Render(href, pathname, asPath, false), Render(href, pathname, asPath, true);
      a.branch == b.branch && a.newTab == b.newTab && a.classes.state == b.classes.state
      && a.classes.mobile == "" && b.classes.mobile != ""
  {
  }

  /** A link is active exactly when the path name or the full path equals its href. */
  lemma ActiveStyling(href: string, pathname: string, asPath: string, mobile: bool)
    ensures (Render(href, pathname, asPath, mobile).classes.state == "hover:text-retro-orange")
            <==> (pathname != href && asPath != href)
  {
  }
}
