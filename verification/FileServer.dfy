/** Published sites as their visitors see them: the file server below /sites/ (internal/httpapi/server.go) on the
    files the generator left, with the links of the page template (internal/generator/templates/base.tmpl). */
module FileServer {
  import opened Results
  import opened Snapshots
  import opened Render
  import opened Site
  import opened SiteDisplay
  import opened SiteProperties

  /** The length of the first segment of a path. */
  function SegmentLength(path: string): (n: nat)
    ensures n <= |path| && (forall i :: 0 <= i < n ==> path[i] != '/') && (n < |path| ==> path[n] == '/')
  {
    if path == "" || path[0] == '/' then 0 else 1 + SegmentLength(path[1..])
  }

  /** StripPrefix, a directory per website, and the file the rest of the path names. */
  function Served(sites: map<string, Files>, url: string): Option<File> {
    if !("/sites/" <= url) then None
    else
      var path := url[|"/sites/"|..];
      var n := SegmentLength(path);
      if n == |path| || path[..n] !in sites then None
      else
        var files := sites[path[..n]];
        var name := Resolved(path[n..]);
        if name in files then Some(files[name]) else None
  }

  /** An id that is one segment of a URL path. */
  predicate OneSegment(website: string) { website != "" && '/' !in website }

  lemma FirstSegment(website: string, tail: string)
    requires '/' !in website && tail != "" && tail[0] == '/'
    ensures SegmentLength(website + tail) == |website|
  {
    var path := website + tail;
    assert path[|website|] == tail[0];
    assert forall i :: 0 <= i < |website| ==> path[i] == website[i];
  }

  lemma ServedBelow(sites: map<string, Files>, website: string, tail: string)
    requires OneSegment(website) && website in sites && tail != "" && tail[0] == '/'
    ensures Served(sites, "/sites/" + website + tail) ==
            if Resolved(tail) in sites[website] then Some(sites[website][Resolved(tail)]) else None
  {
    var url, path := "/sites/" + website + tail, website + tail;
    assert url[|"/sites/"|..] == path;
    FirstSegment(website, tail);
    assert path[..|website|] == website && path[|website|..] == tail;
  }

  // ---- What a visitor finds ----

  function LinkTail(slug: string): string { if Root(slug) then "/" else "/" + slug + "/" }

  /** The link to a page, below the base path of its site. */
  ghost predicate LinksTo(href: string, base: string, slug: string) { href == base + LinkTail(slug) }

  ghost predicate ServesTitle(sites: map<string, Files>, href: string, title: string) {
    match Served(sites, href)
    case Some(PageFile(page)) => page.title == title
    case _ => false
  }

  /** Every entry of the navigation bar has a page's title and leads to the page of that title. */
  ghost predicate NavServed(sites: map<string, Files>, snap: Snapshot, nav: seq<NavItem>) {
    && |nav| == |snap.pages|
    && forall j :: 0 <= j < |nav| ==>
         nav[j].title == snap.pages[j].title && ServesTitle(sites, nav[j].href, nav[j].title)
  }

  /** The page under a URL shows one page of the snapshot; its navigation and its stylesheet are served too. */
  ghost predicate PageServed(
    sites: map<string, Files>, base: string, snap: Snapshot, year: int, p: Page, href: string)
  {
    && LinksTo(href, base, p.slug)
    && match Served(sites, href)
       case Some(PageFile(page)) =>
         && PageShown(p, snap, page.site, page)
         && SiteDataIs(snap, base, year, page.site)
         && page.site.basePath == base
         && NavServed(sites, snap, page.site.nav)
         && Served(sites, page.site.basePath + "/styles.css") == Some(Stylesheet)
       case _ => false
  }

  ghost predicate Reachable(sites: map<string, Files>, base: string, snap: Snapshot, year: int, i: nat) {
    i < |snap.pages| && exists href :: PageServed(sites, base, snap, year, snap.pages[i], href)
  }

  /** The whole site of a snapshot is served below /sites/{website}; its root exactly when a page is called home. */
  ghost predicate Browsable(sites: map<string, Files>, website: string, snap: Snapshot, year: int) {
    var base := "/sites/" + website;
    && (forall i :: 0 <= i < |snap.pages| ==> Reachable(sites, base, snap, year, i))
    && (Served(sites, base + "/").Some? <==> exists i :: 0 <= i < |snap.pages| && snap.pages[i].slug == "home")
  }

  lemma BaseIsKept(website: string, base: string)
    requires OneSegment(website) && Stripped("/sites/" + website, base)
    ensures base == "/sites/" + website
  {
    var path := "/sites/" + website;
    assert path[|path| - 1] == website[|website| - 1];
  }

  lemma TailResolves(slug: string, path: string)
    requires IsPathOf(path, slug)
    ensures LinkTail(slug) != "" && LinkTail(slug)[0] == '/' && Resolved(LinkTail(slug)) == path
  {
    assert LinkTail(slug)[1..] + "index.html" == path;
  }

  lemma LinkIsServed(
    sites: map<string, Files>, website: string, snap: Snapshot, site: SiteData, i: nat, href: string)
    requires OneSegment(website) && website in sites && i < |snap.pages| && GoodSlugs(snap.pages)
    requires PagesShown(snap, |snap.pages|, site, sites[website])
    requires LinksTo(href, "/sites/" + website, snap.pages[i].slug)
    ensures Served(sites, href).Some? && Served(sites, href).value.PageFile?
    ensures PageShown(snap.pages[i], snap, site, Served(sites, href).value.page)
  {
    var tail := LinkTail(snap.pages[i].slug);
    ServedBelow(sites, website, tail);
    assert Lasting(snap.pages, |snap.pages|, i);
    var path :| PageFileAt(sites[website], path, snap.pages[i], snap, site);
    TailResolves(snap.pages[i].slug, path);
  }

  lemma NavIsServed(sites: map<string, Files>, website: string, snap: Snapshot, year: int, site: SiteData)
    requires OneSegment(website) && website in sites && GoodSlugs(snap.pages)
    requires SiteDataIs(snap, "/sites/" + website, year, site) && site.basePath == "/sites/" + website
    requires PagesShown(snap, |snap.pages|, site, sites[website])
    ensures NavServed(sites, snap, site.nav)
  {
    forall j | 0 <= j < |site.nav| ensures ServesTitle(sites, site.nav[j].href, site.nav[j].title) {
      LinkIsServed(sites, website, snap, site, j, site.nav[j].href);
    }
  }

  lemma StylesheetIsServed(sites: map<string, Files>, website: string, snap: Snapshot)
    requires OneSegment(website) && website in sites && FixedShown(snap, sites[website])
    ensures Served(sites, "/sites/" + website + "/styles.css") == Some(Stylesheet)
  {
    ServedBelow(sites, website, "/styles.css");
    assert Resolved("/styles.css") == "styles.css";
  }

  lemma NoOtherIndex(slug: string)
    ensures IsPathOf("index.html", slug) <==> Root(slug)
  {
    assert |slug + "/index.html"| == |slug| + |"/index.html"|;
  }

  lemma IndexIffHome(snap: Snapshot, site: SiteData, files: Files)
    requires GoodSlugs(snap.pages) && FilesShown(snap, site, files)
    ensures "index.html" in files <==> exists i :: 0 <= i < |snap.pages| && snap.pages[i].slug == "home"
  {
    if i :| 0 <= i < |snap.pages| && snap.pages[i].slug == "home" {
      HomeHasIndex(snap, site, files, i);
    }
    if "index.html" in files {
      assert !FixedName("index.html");
      var i :| 0 <= i < |snap.pages| && IsPathOf("index.html", snap.pages[i].slug);
      NoOtherIndex(snap.pages[i].slug);
    }
  }

  lemma HomeHasIndex(snap: Snapshot, site: SiteData, files: Files, i: nat)
    requires GoodSlugs(snap.pages) && PagesShown(snap, |snap.pages|, site, files)
    requires i < |snap.pages| && snap.pages[i].slug == "home"
    ensures "index.html" in files
  {
    assert Lasting(snap.pages, |snap.pages|, i);
    var path :| PageFileAt(files, path, snap.pages[i], snap, site);
  }

  lemma RootIsServed(sites: map<string, Files>, website: string)
    requires OneSegment(website) && website in sites
    ensures Served(sites, "/sites/" + website + "/").Some? <==> "index.html" in sites[website]
  {
    ServedBelow(sites, website, "/");
    assert Resolved("/") == "index.html";
  }

  lemma PageIsServed(
    sites: map<string, Files>, website: string, base: string, snap: Snapshot, year: int, site: SiteData, i: nat)
    requires OneSegment(website) && website in sites && i < |snap.pages| && GoodSlugs(snap.pages)
    requires base == "/sites/" + website && SiteDataIs(snap, base, year, site) && site.basePath == base
    requires FilesShown(snap, site, sites[website])
    requires NavServed(sites, snap, site.nav) && Served(sites, base + "/styles.css") == Some(Stylesheet)
    ensures Reachable(sites, base, snap, year, i)
  {
    var href := base + LinkTail(snap.pages[i].slug);
    LinkIsServed(sites, website, snap, site, i, href);
    assert PageServed(sites, base, snap, year, snap.pages[i], href);
  }

  lemma PagesAreServed(
    sites: map<string, Files>, website: string, base: string, snap: Snapshot, year: int, site: SiteData)
    requires OneSegment(website) && website in sites && GoodSlugs(snap.pages)
    requires base == "/sites/" + website && SiteDataIs(snap, base, year, site)
    requires FilesShown(snap, site, sites[website])
    ensures forall i :: 0 <= i < |snap.pages| ==> Reachable(sites, base, snap, year, i)
  {
    BaseIsKept(website, site.basePath);
    NavIsServed(sites, website, snap, year, site);
    StylesheetIsServed(sites, website, snap);
    forall i | 0 <= i < |snap.pages| ensures Reachable(sites, base, snap, year, i) {
      PageIsServed(sites, website, base, snap, year, site, i);
    }
  }

  /** A published site works below /sites/: each page under its own address, each link of each page, the stylesheet. */
  lemma PublishedSiteIsBrowsable(sites: map<string, Files>, website: string, snap: Snapshot, year: int)
    requires OneSegment(website) && website in sites && GoodSlugs(snap.pages)
    requires SiteShown(snap, "/sites/" + website, year, sites[website])
    ensures Browsable(sites, website, snap, year)
  {
    var base := "/sites/" + website;
    var site :| SiteDataIs(snap, base, year, site) && FilesShown(snap, site, sites[website]);
    PagesAreServed(sites, website, base, snap, year, site);
    RootIsServed(sites, website);
    IndexIffHome(snap, site, sites[website]);
  }

  /** The complete new site of a website: what its directory holds, and that it works where it is served. */
  ghost predicate Published(sites: map<string, Files>, website: string, snap: Snapshot, year: int) {
    && website in sites
    && SiteShown(snap, "/sites/" + website, year, sites[website])
    && (OneSegment(website) && GoodSlugs(snap.pages) ==> Browsable(sites, website, snap, year))
  }

  lemma GeneratedIsPublished(sites: map<string, Files>, website: string, snap: Snapshot, year: int)
    requires website in sites && Buildable(snap)
    requires sites[website] == Generated(snap, "/sites/" + website, year)
    ensures Published(sites, website, snap, year)
  {
    SiteDisplays(snap, "/sites/" + website, year);
    if OneSegment(website) && GoodSlugs(snap.pages) {
      PublishedSiteIsBrowsable(sites, website, snap, year);
    }
  }
}
