/** The generator as the source runs it: the page loop, the fixed files, and the directory they are written to
    (internal/generator/generator.go). */
module Generator {
  import opened Results
  import opened Snapshots
  import opened Render
  import opened Sitemap
  import opened Site
  import opened SiteDisplay

  method BuildSiteData(snap: Snapshot, basePath: string, year: int) returns (site: SiteData)
    ensures site == SiteOf(snap, basePath, year) && SiteDataIs(snap, basePath, year, site)
  {
    var settings := snap.website.settings;
    var logo := Lookup(snap.media, settings.logoMediaID);
    if settings.primaryColor == "" {
      settings := settings.(primaryColor := "#2563eb");
    }
    var base := Trimmed(basePath);
    var nav: seq<NavItem> := [];
    for i := 0 to |snap.pages|
      invariant nav == NavOf(snap.pages, base)[..i]
    {
      nav := nav + [NavItem(snap.pages[i].title, base + PageHref(snap.pages[i].slug))];
    }
    assert nav == NavOf(snap.pages, base);
    SiteDataDisplays(snap, basePath, year);
    site := SiteData(snap.website.name, settings, logo.url, nav, year, base);
  }

  method RenderPage(p: Page, snap: Snapshot, site: SiteData) returns (r: Result<PageData, BuildError>)
    ensures r == PageOf(p, snap, site) && PageSeen(p, snap, site, r)
  {
    PageDisplays(p, snap, site);
    var blocks: seq<BlockData> := [];
    for i := 0 to |p.sections|
      invariant BlocksOf(p.sections[..i], snap, site) == Ok(blocks)
    {
      assert p.sections[..i + 1][..i] == p.sections[..i];
      var s := p.sections[i];
      if s.blockType in snap.blockTypes {
        var block := BuildBlock(snap.blockTypes[s.blockType], s.content, site, snap.media);
        if block.Err? {
          FirstErrorStops(p.sections, i + 1, snap, site);
          return Err(BadBlock(p.title, s.blockType));
        }
        blocks := blocks + [block.value];
      }
    }
    assert p.sections[..|p.sections|] == p.sections;
    return Ok(PageShell(p, snap, site, blocks));
  }

  lemma {:induction false} FirstErrorStops(sections: seq<Section>, n: nat, snap: Snapshot, site: SiteData)
    requires n <= |sections| && BlocksOf(sections[..n], snap, site).Err?
    ensures BlocksOf(sections, snap, site) == BlocksOf(sections[..n], snap, site)
  {
    if n < |sections| {
      var last := |sections| - 1;
      assert sections[..last][..n] == sections[..n];
      FirstErrorStops(sections[..last], n, snap, site);
    } else {
      assert sections[..n] == sections;
    }
  }

  /** The page loop, into an emptied directory: stops at the first page with an undecodable section. */
  method WritePages(snap: Snapshot, site: SiteData) returns (files: Files, err: Option<BuildError>)
    ensures err.None? <==> PageWrites(snap.pages, snap, site).Ok?
    ensures err.None? ==> files == Stored(PageWrites(snap.pages, snap, site).value)
    ensures err.Some? ==> StopsWith(snap, site, err.value, files)
  {
    files := map[];
    ghost var writes: seq<Write> := [];
    for i := 0 to |snap.pages|
      invariant PageWrites(snap.pages[..i], snap, site) == Ok(writes)
      invariant files == Stored(writes)
    {
      var page := RenderPage(snap.pages[i], snap, site);
      if page.Err? {
        FirstFailureStops(snap.pages, i, snap, site);
        assert StopsAt(snap, site, i) && files == FirstPages(snap, site, i);
        return files, Some(page.error);
      }
      var write := Write(PagePath(snap.pages[i].slug), PageFile(page.value));
      AnotherPage(snap.pages, i, snap, site, writes, write);
      StoredAppend(writes, write);
      writes := writes + [write];
      files := files[write.path := write.file];
    }
    assert snap.pages[..|snap.pages|] == snap.pages;
    return files, None;
  }

  lemma AnotherPage(pages: seq<Page>, i: nat, snap: Snapshot, site: SiteData, writes: seq<Write>, write: Write)
    requires i < |pages| && PageWrites(pages[..i], snap, site) == Ok(writes) && PageOf(pages[i], snap, site).Ok?
    requires write == Write(PagePath(pages[i].slug), PageFile(PageOf(pages[i], snap, site).value))
    ensures PageWrites(pages[..i + 1], snap, site) == Ok(writes + [write])
  {
    assert pages[..i + 1][..i] == pages[..i];
  }

  lemma FirstFailureStops(pages: seq<Page>, n: nat, snap: Snapshot, site: SiteData)
    requires n < |pages| && PageOf(pages[n], snap, site).Err?
    ensures PageWrites(pages, snap, site).Err?
  {
  }

  method WriteFixed(snap: Snapshot, before: Files) returns (files: Files)
    ensures files == before["styles.css" := Stylesheet]
                           ["sitemap.xml" := SitemapFile(Document(snap.website.domain, Slugs(snap.pages)))]
                           ["robots.txt" := RobotsFile(Robots(snap.website.domain))]
  {
    files := before["styles.css" := Stylesheet];
    var text := WriteSitemap(snap.website.domain, Slugs(snap.pages));
    files := files["sitemap.xml" := SitemapFile(text)];
    var robots := "User-agent: *\nAllow: /\n";
    if snap.website.domain != "" {
      robots := robots + ("Sitemap: https://" + snap.website.domain + "/sitemap.xml\n");
    }
    assert robots == Robots(snap.website.domain);
    files := files["robots.txt" := RobotsFile(robots)];
  }

  lemma StoredFixed(files: Files, snap: Snapshot, site: SiteData)
    requires PageWrites(snap.pages, snap, site).Ok?
    requires files == Stored(PageWrites(snap.pages, snap, site).value)
    ensures Stored(PageWrites(snap.pages, snap, site).value + FixedWrites(snap)) ==
            files["styles.css" := Stylesheet]
                 ["sitemap.xml" := SitemapFile(Document(snap.website.domain, Slugs(snap.pages)))]
                 ["robots.txt" := RobotsFile(Robots(snap.website.domain))]
  {
    var f := FixedWrites(snap);
    StoredThree(PageWrites(snap.pages, snap, site).value, f[0], f[1], f[2]);
  }

  /** Everything Generate writes after clearing the directory. */
  method BuildFiles(snap: Snapshot, basePath: string, year: int) returns (files: Files, err: Option<BuildError>)
    requires snap.pages != []
    ensures err.None? <==> Buildable(snap)
    ensures Buildable(snap) ==> files == Generated(snap, basePath, year) && SiteShown(snap, basePath, year, files)
    ensures err.Some? ==>
              BuildStops(snap, basePath, year, err.value, files) && FailureShown(snap, basePath, year, err.value, files)
  {
    BuildsIffBuildable(snap, basePath, year);
    var site := BuildSiteData(snap, basePath, year);
    files, err := WritePages(snap, site);
    if err.None? {
      StoredFixed(files, snap, site);
      files := WriteFixed(snap, files);
      SiteDisplays(snap, basePath, year);
    } else {
      FailureDisplays(snap, basePath, year, err.value, files);
    }
  }

  /** The file system: the contents of each directory. */
  class Disk {
    var dirs: map<string, Files>

    constructor ()
      ensures dirs == map[]
    {
      dirs := map[];
    }

    /** Empties outDir before it knows whether the build will succeed: a failed build leaves a partial site. */
    method Generate(snap: Snapshot, outDir: string, basePath: string, year: int) returns (err: Option<BuildError>)
      modifies this
      ensures err.None? <==> Buildable(snap)
      ensures snap.pages == [] ==> err == Some(NoVisiblePages) && dirs == old(dirs)
      ensures snap.pages != [] ==> outDir in dirs && dirs == old(dirs)[outDir := dirs[outDir]]
      ensures Buildable(snap) ==>
                && dirs[outDir] == Generated(snap, basePath, year)
                && SiteShown(snap, basePath, year, dirs[outDir])
      ensures snap.pages != [] && err.Some? ==>
                && BuildStops(snap, basePath, year, err.value, dirs[outDir])
                && FailureShown(snap, basePath, year, err.value, dirs[outDir])
    {
      if |snap.pages| == 0 {
        return Some(NoVisiblePages);
      }
      dirs := dirs[outDir := map[]];
      var files;
      files, err := BuildFiles(snap, basePath, year);
      LastUpdateWins(old(dirs), outDir, map[], files);
      dirs := dirs[outDir := files];
    }
  }

  lemma LastUpdateWins(dirs: map<string, Files>, dir: string, a: Files, b: Files)
    ensures dirs[dir := a][dir := b] == dirs[dir := b]
  {
  }
}
