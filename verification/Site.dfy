/** The static site generator as a map from paths to files (internal/generator/generator.go). */
module Site {
  import opened Results
  import opened Json
  import opened Snapshots
  import opened Render
  import opened Sitemap

  /** https://, a domain and a path. */
  datatype Url = Https(domain: string, path: string)

  /** The page's own title, or page and website name with a dash between them. */
  datatype SeoTitle = Own(text: string) | Combined(page: string, website: string)

  datatype PageData = PageData(
    site: SiteData, title: string, seoTitle: SeoTitle, seoDesc: string, canon: Option<Url>, sections: seq<BlockData>)

  /** What a file holds; the text of a page is a function of its view model. */
  datatype File =
    | PageFile(page: PageData)
    | Stylesheet
    | SitemapFile(text: string)
    | RobotsFile(text: string)

  type Files = map<string, File>

  datatype Write = Write(path: string, file: File)

  datatype BuildError = NoVisiblePages | BadBlock(pageTitle: string, blockType: string)

  // ---- Specification: the writes of a build, in order ----

  function Trimmed(path: string): string {
    if path != "" && path[|path| - 1] == '/' then Trimmed(path[..|path| - 1]) else path
  }

  function NavOf(pages: seq<Page>, base: string): seq<NavItem> {
    seq(|pages|, i requires 0 <= i < |pages| => NavItem(pages[i].title, base + PageHref(pages[i].slug)))
  }

  function SiteOf(snap: Snapshot, basePath: string, year: int): SiteData {
    var settings := snap.website.settings;
    var base := Trimmed(basePath);
    SiteData(
      snap.website.name,
      if settings.primaryColor == "" then settings.(primaryColor := "#2563eb") else settings,
      Lookup(snap.media, settings.logoMediaID).url,
      NavOf(snap.pages, base),
      year,
      base)
  }

  /** Sections of unknown types are skipped; the first undecodable one stops the page. */
  function BlocksOf(sections: seq<Section>, snap: Snapshot, site: SiteData): Result<seq<BlockData>, string> {
    if sections == [] then Ok([])
    else
      var n := |sections| - 1;
      match BlocksOf(sections[..n], snap, site)
      case Err(e) => Err(e)
      case Ok(blocks) =>
        if sections[n].blockType !in snap.blockTypes then Ok(blocks)
        else
          match Built(snap.blockTypes[sections[n].blockType], sections[n].content, site, snap.media)
          case Err(_) => Err(sections[n].blockType)
          case Ok(block) => Ok(blocks + [block])
  }

  function PageShell(p: Page, snap: Snapshot, site: SiteData, blocks: seq<BlockData>): PageData {
    PageData(
      site,
      p.title,
      if p.seoTitle != "" then Own(p.seoTitle) else Combined(p.title, site.name),
      FirstNonEmpty(p.seoDescription, site.settings.seoDescription),
      if snap.website.domain == "" then None else Some(Https(snap.website.domain, PageHref(p.slug))),
      blocks)
  }

  function SeoText(title: SeoTitle, dash: string): string {
    match title
    case Own(text) => text
    case Combined(page, website) => page + dash + website
  }

  /** The source's three choices: the second is never empty, so the website's default title is never used. */
  lemma SeoTitleIsFirstChoice(p: Page, snap: Snapshot, site: SiteData, blocks: seq<BlockData>, dash: string)
    requires dash != ""
    ensures SeoText(PageShell(p, snap, site, blocks).seoTitle, dash) ==
            FirstNonEmpty(p.seoTitle, FirstNonEmpty(p.title + dash + site.name, site.settings.seoTitle))
  {
  }

  function PageOf(p: Page, snap: Snapshot, site: SiteData): Result<PageData, BuildError> {
    match BlocksOf(p.sections, snap, site)
    case Err(blockType) => Err(BadBlock(p.title, blockType))
    case Ok(blocks) => Ok(PageShell(p, snap, site, blocks))
  }

  function PageWrites(pages: seq<Page>, snap: Snapshot, site: SiteData): Result<seq<Write>, BuildError> {
    if pages == [] then Ok([])
    else
      var n := |pages| - 1;
      match PageWrites(pages[..n], snap, site)
      case Err(e) => Err(e)
      case Ok(writes) =>
        match PageOf(pages[n], snap, site)
        case Err(e) => Err(e)
        case Ok(page) => Ok(writes + [Write(PagePath(pages[n].slug), PageFile(page))])
  }

  function Slugs(pages: seq<Page>): (slugs: seq<string>)
    ensures |slugs| == |pages| && forall i :: 0 <= i < |pages| ==> slugs[i] == pages[i].slug
  {
    seq(|pages|, i requires 0 <= i < |pages| => pages[i].slug)
  }

  function Robots(domain: string): string {
    "User-agent: *\nAllow: /\n"
    + if domain != "" then "Sitemap: https://" + domain + "/sitemap.xml\n" else ""
  }

  function FixedWrites(snap: Snapshot): seq<Write> {
    [Write("styles.css", Stylesheet),
     Write("sitemap.xml", SitemapFile(Document(snap.website.domain, Slugs(snap.pages)))),
     Write("robots.txt", RobotsFile(Robots(snap.website.domain)))]
  }

  function Writes(snap: Snapshot, basePath: string, year: int): Result<seq<Write>, BuildError> {
    if snap.pages == [] then Err(NoVisiblePages)
    else
      match PageWrites(snap.pages, snap, SiteOf(snap, basePath, year))
      case Err(e) => Err(e)
      case Ok(writes) => Ok(writes + FixedWrites(snap))
  }

  /** What a build gets round to writing: everything, or the pages before the first one that fails. */
  datatype Attempt = Refused | Attempt(writes: seq<Write>, complete: bool)

  function PagesWritten(pages: seq<Page>, snap: Snapshot, site: SiteData): seq<Write> {
    match PageWrites(pages, snap, site)
    case Ok(writes) => writes
    case Err(_) => if pages == [] then [] else PagesWritten(pages[..|pages| - 1], snap, site)
  }

  function Attempted(snap: Snapshot, basePath: string, year: int): Attempt {
    if snap.pages == [] then Refused
    else
      match Writes(snap, basePath, year)
      case Ok(writes) => Attempt(writes, true)
      case Err(_) => Attempt(PagesWritten(snap.pages, snap, SiteOf(snap, basePath, year)), false)
  }

  /** The directory after some writes into an empty one. */
  function Stored(writes: seq<Write>): Files {
    if writes == [] then map[]
    else
      var n := |writes| - 1;
      Stored(writes[..n])[writes[n].path := writes[n].file]
  }

  // ---- When a build succeeds ----

  /** There is a page, and every section of a known type holds an object. */
  ghost predicate Buildable(snap: Snapshot) {
    && snap.pages != []
    && forall p :: p in snap.pages ==> PageBuildable(p, snap)
  }

  ghost predicate PageBuildable(p: Page, snap: Snapshot) {
    forall s :: s in p.sections && s.blockType in snap.blockTypes ==> Decode(s.content).Ok?
  }

  lemma {:induction false} BlocksBuild(sections: seq<Section>, snap: Snapshot, site: SiteData)
    ensures BlocksOf(sections, snap, site).Ok? <==>
            forall s :: s in sections && s.blockType in snap.blockTypes ==> Decode(s.content).Ok?
  {
    if sections != [] {
      var n := |sections| - 1;
      BlocksBuild(sections[..n], snap, site);
      assert sections == sections[..n] + [sections[n]];
    }
  }

  lemma {:induction false} PagesBuild(pages: seq<Page>, snap: Snapshot, site: SiteData)
    ensures PageWrites(pages, snap, site).Ok? <==> forall p :: p in pages ==> PageBuildable(p, snap)
  {
    if pages != [] {
      var n := |pages| - 1;
      PagesBuild(pages[..n], snap, site);
      BlocksBuild(pages[n].sections, snap, site);
      assert PageOf(pages[n], snap, site).Ok? <==> PageBuildable(pages[n], snap);
      assert pages == pages[..n] + [pages[n]];
    }
  }

  /** Success depends on the snapshot alone, never on the output directory, the base path or the year. */
  lemma BuildsIffBuildable(snap: Snapshot, basePath: string, year: int)
    ensures Writes(snap, basePath, year).Ok? <==> Buildable(snap)
  {
    PagesBuild(snap.pages, snap, SiteOf(snap, basePath, year));
  }

  /** The complete file map of a build. */
  ghost function Generated(snap: Snapshot, basePath: string, year: int): Files
    requires Buildable(snap)
  {
    BuildsIffBuildable(snap, basePath, year);
    Stored(Writes(snap, basePath, year).value)
  }

  // ---- What a directory holds after some writes ----

  lemma StoredAppend(writes: seq<Write>, write: Write)
    ensures Stored(writes + [write]) == Stored(writes)[write.path := write.file]
  {
  }

  lemma StoredThree(writes: seq<Write>, a: Write, b: Write, c: Write)
    ensures Stored(writes + [a, b, c]) == Stored(writes)[a.path := a.file][b.path := b.file][c.path := c.file]
  {
    StoredAppend(writes, a);
    StoredAppend(writes + [a], b);
    StoredAppend(writes + [a] + [b], c);
    assert writes + [a, b, c] == writes + [a] + [b] + [c];
  }

  /** A write that no later one to the same path follows is what the directory holds. */
  lemma {:induction false} LastWriteStays(writes: seq<Write>, i: nat)
    requires i < |writes| && forall j :: i < j < |writes| ==> writes[j].path != writes[i].path
    ensures writes[i].path in Stored(writes) && Stored(writes)[writes[i].path] == writes[i].file
  {
    var n := |writes| - 1;
    if i < n {
      assert writes[n].path != writes[i].path;
      LastWriteStays(writes[..n], i);
    }
  }

  lemma {:induction false} OnlyWrittenPaths(writes: seq<Write>, path: string)
    requires path in Stored(writes)
    ensures exists i :: 0 <= i < |writes| && writes[i].path == path
  {
    var n := |writes| - 1;
    if path != writes[n].path {
      OnlyWrittenPaths(writes[..n], path);
      var i :| 0 <= i < n && writes[..n][i].path == path;
      assert writes[i].path == path;
    }
  }

  lemma {:induction false} PageWriteAt(pages: seq<Page>, snap: Snapshot, site: SiteData, i: nat)
    requires PageWrites(pages, snap, site).Ok? && i < |pages|
    ensures |PageWrites(pages, snap, site).value| == |pages|
    ensures PageOf(pages[i], snap, site).Ok?
    ensures PageWrites(pages, snap, site).value[i] ==
            Write(PagePath(pages[i].slug), PageFile(PageOf(pages[i], snap, site).value))
  {
    var n := |pages| - 1;
    if n > 0 {
      PageWriteAt(pages[..n], snap, site, if i < n then i else 0);
    }
  }

  // ---- When a build stops ----

  /** The first n pages build and page n does not. */
  ghost predicate StopsAt(snap: Snapshot, site: SiteData, n: nat)
    requires n < |snap.pages|
  {
    PageWrites(snap.pages[..n], snap, site).Ok? && PageOf(snap.pages[n], snap, site).Err?
  }

  ghost function FirstPages(snap: Snapshot, site: SiteData, n: nat): Files
    requires n < |snap.pages| && StopsAt(snap, site, n)
  {
    Stored(PageWrites(snap.pages[..n], snap, site).value)
  }

  /** The build stops at some page with its error, and leaves the pages before it. */
  ghost predicate StopsWith(snap: Snapshot, site: SiteData, err: BuildError, files: Files) {
    exists n :: 0 <= n < |snap.pages|
      && StopsAt(snap, site, n)
      && err == PageOf(snap.pages[n], snap, site).error
      && files == FirstPages(snap, site, n)
  }

  ghost predicate BuildStops(snap: Snapshot, basePath: string, year: int, err: BuildError, files: Files) {
    StopsWith(snap, SiteOf(snap, basePath, year), err, files)
  }
}
