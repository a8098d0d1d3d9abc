/** What the files of a site hold, said section by section and path by path and not by the loops
    (internal/generator/generator.go). */
module SiteDisplay {
  import opened Results
  import Json
  import opened Snapshots
  import opened Render
  import opened Display
  import opened Sitemap
  import opened Site

  // ---- The blocks of a page ----

  predicate KnownAt(sections: seq<Section>, i: nat, snap: Snapshot) {
    i < |sections| && sections[i].blockType in snap.blockTypes
  }

  /** The block of one section: what it was built from, and what it shows. */
  ghost predicate BlockAt(i: nat, sections: seq<Section>, snap: Snapshot, site: SiteData, block: BlockData) {
    && KnownAt(sections, i, snap)
    && var schema := snap.blockTypes[sections[i].blockType];
    && Built(schema, sections[i].content, site, snap.media) == Ok(block)
    && SectionShown(schema, sections[i].content, site, snap.media, Ok(block))
  }

  /** One block for each section of a known type among the first n, in their order. */
  ghost predicate BlocksAt(
    places: seq<nat>, sections: seq<Section>, n: nat, snap: Snapshot, site: SiteData, blocks: seq<BlockData>)
  {
    && Ascending(places)
    && (forall i :: i in places <==> 0 <= i < n && KnownAt(sections, i, snap))
    && |blocks| == |places|
    && forall k :: 0 <= k < |places| ==> BlockAt(places[k], sections, snap, site, blocks[k])
  }

  /** A section of a known type that does not hold an object. */
  ghost predicate Undecodable(sections: seq<Section>, i: nat, snap: Snapshot) {
    KnownAt(sections, i, snap) && !exists d :: Holds(sections[i].content, d)
  }

  ghost predicate FirstUndecodable(sections: seq<Section>, i: nat, snap: Snapshot) {
    Undecodable(sections, i, snap) && forall j :: 0 <= j < i ==> !Undecodable(sections, j, snap)
  }

  ghost predicate AllDecodable(sections: seq<Section>, n: nat, snap: Snapshot) {
    forall i :: 0 <= i < n ==> !Undecodable(sections, i, snap)
  }

  ghost predicate BlocksSeen(
    sections: seq<Section>, n: nat, snap: Snapshot, site: SiteData, r: Result<seq<BlockData>, string>)
  {
    match r
    case Ok(blocks) =>
      && (exists places :: BlocksAt(places, sections, n, snap, site, blocks))
      && AllDecodable(sections, n, snap)
    case Err(blockType) =>
      exists i :: 0 <= i < n && FirstUndecodable(sections, i, snap) && blockType == sections[i].blockType
  }

  lemma AnotherBlock(
    places: seq<nat>, sections: seq<Section>, n: nat, snap: Snapshot, site: SiteData, blocks: seq<BlockData>,
    block: BlockData)
    requires BlocksAt(places, sections, n, snap, site, blocks) && BlockAt(n, sections, snap, site, block)
    ensures BlocksAt(places + [n], sections, n + 1, snap, site, blocks + [block])
  {
    assert forall a :: 0 <= a < |places| ==> places[a] in places;
    assert forall i :: i in places + [n] <==> i in places || i == n;
  }

  lemma NoBlock(
    places: seq<nat>, sections: seq<Section>, n: nat, snap: Snapshot, site: SiteData, blocks: seq<BlockData>)
    requires BlocksAt(places, sections, n, snap, site, blocks) && !KnownAt(sections, n, snap)
    ensures BlocksAt(places, sections, n + 1, snap, site, blocks)
  {
  }

  lemma NextSection(
    sections: seq<Section>, n: nat, snap: Snapshot, site: SiteData, blocks: seq<BlockData>,
    r: Result<seq<BlockData>, string>)
    requires n < |sections| && BlocksSeen(sections, n, snap, site, Ok(blocks))
    requires KnownAt(sections, n, snap)
    requires var built := Built(snap.blockTypes[sections[n].blockType], sections[n].content, site, snap.media);
             r == if built.Ok? then Ok(blocks + [built.value]) else Err(sections[n].blockType)
    ensures BlocksSeen(sections, n + 1, snap, site, r)
  {
    var schema := snap.blockTypes[sections[n].blockType];
    var places :| BlocksAt(places, sections, n, snap, site, blocks);
    BlockDisplays(schema, sections[n].content, site, snap.media);
    if r.Ok? {
      var block := Built(schema, sections[n].content, site, snap.media).value;
      AnotherBlock(places, sections, n, snap, site, blocks, block);
      assert !Undecodable(sections, n, snap);
    } else {
      assert FirstUndecodable(sections, n, snap);
    }
  }

  lemma {:induction false} BlocksOfSeen(sections: seq<Section>, n: nat, snap: Snapshot, site: SiteData)
    requires n <= |sections|
    ensures BlocksSeen(sections, n, snap, site, BlocksOf(sections[..n], snap, site))
  {
    if n == 0 {
      assert BlocksAt([], sections, 0, snap, site, []);
    } else {
      BlocksOfSeen(sections, n - 1, snap, site);
      assert sections[..n][..n - 1] == sections[..n - 1];
      var before := BlocksOf(sections[..n - 1], snap, site);
      if before.Ok? {
        if KnownAt(sections, n - 1, snap) {
          NextSection(sections, n - 1, snap, site, before.value, BlocksOf(sections[..n], snap, site));
        } else {
          var places :| BlocksAt(places, sections, n - 1, snap, site, before.value);
          NoBlock(places, sections, n - 1, snap, site, before.value);
        }
      }
    }
  }

  // ---- A page ----

  /** "home" and nothing both name the root page. */
  predicate Root(slug: string) { slug == "" || slug == "home" }

  ghost predicate PageShown(p: Page, snap: Snapshot, site: SiteData, page: PageData) {
    && page.site == site
    && page.title == p.title
    && page.seoTitle == (if p.seoTitle == "" then Combined(p.title, site.name) else Own(p.seoTitle))
    && page.seoDesc == (if p.seoDescription == "" then site.settings.seoDescription else p.seoDescription)
    && page.canon == (
         if snap.website.domain == "" then None
         else Some(Https(snap.website.domain, if Root(p.slug) then "/" else "/" + p.slug + "/")))
    && exists places :: BlocksAt(places, p.sections, |p.sections|, snap, site, page.sections)
  }

  /** The error names the page and the type of its first section of a known type that holds no object. */
  ghost predicate PageFails(p: Page, snap: Snapshot, err: BuildError) {
    exists i: nat :: FirstUndecodable(p.sections, i, snap) && err == BadBlock(p.title, p.sections[i].blockType)
  }

  ghost predicate PageSeen(p: Page, snap: Snapshot, site: SiteData, r: Result<PageData, BuildError>) {
    match r
    case Ok(page) => PageShown(p, snap, site, page) && AllDecodable(p.sections, |p.sections|, snap)
    case Err(err) => PageFails(p, snap, err)
  }

  /** A page shows its title, its descriptions and one block for each section of a known type, or names the first bad one. */
  lemma PageDisplays(p: Page, snap: Snapshot, site: SiteData)
    ensures PageSeen(p, snap, site, PageOf(p, snap, site))
  {
    BlocksOfSeen(p.sections, |p.sections|, snap, site);
    assert p.sections[..|p.sections|] == p.sections;
  }

  // ---- The data every page shares ----

  /** The base path without the slashes it ends in. */
  ghost predicate Stripped(path: string, base: string) {
    && base <= path
    && (forall i :: |base| <= i < |path| ==> path[i] == '/')
    && (base != "" ==> base[|base| - 1] != '/')
  }

  ghost predicate SiteDataIs(snap: Snapshot, basePath: string, year: int, site: SiteData) {
    var settings := snap.website.settings;
    && site.name == snap.website.name
    && site.settings == settings.(primaryColor := site.settings.primaryColor)
    && site.settings.primaryColor == (if settings.primaryColor == "" then "#2563eb" else settings.primaryColor)
    && site.logoURL == (if settings.logoMediaID in snap.media then snap.media[settings.logoMediaID].url else "")
    && site.year == year
    && Stripped(basePath, site.basePath)
    && |site.nav| == |snap.pages|
    && forall i :: 0 <= i < |snap.pages| ==>
         site.nav[i] == NavItem(
           snap.pages[i].title,
           site.basePath + if Root(snap.pages[i].slug) then "/" else "/" + snap.pages[i].slug + "/")
  }

  lemma {:induction false} TrimmedStrips(path: string)
    ensures Stripped(path, Trimmed(path))
  {
    if path != "" && path[|path| - 1] == '/' {
      TrimmedStrips(path[..|path| - 1]);
    }
  }

  lemma SiteDataDisplays(snap: Snapshot, basePath: string, year: int)
    ensures SiteDataIs(snap, basePath, year, SiteOf(snap, basePath, year))
  {
    TrimmedStrips(basePath);
  }

  // ---- The files of the pages ----

  predicate SameFile(slug: string, other: string) {
    slug == other || (Root(slug) && Root(other))
  }

  predicate IsPathOf(path: string, slug: string) {
    path == if Root(slug) then "index.html" else slug + "/index.html"
  }

  lemma SameFileIffSamePath(slug: string, other: string)
    ensures SameFile(slug, other) <==> PagePath(slug) == PagePath(other)
  {
    if !Root(slug) && !Root(other) && PagePath(slug) == PagePath(other) {
      assert slug == PagePath(slug)[..|slug|] && other == PagePath(other)[..|other|];
    }
  }

  ghost predicate PageFileAt(files: Files, path: string, p: Page, snap: Snapshot, site: SiteData) {
    && IsPathOf(path, p.slug)
    && path in files
    && files[path].PageFile?
    && PageShown(p, snap, site, files[path].page)
  }

  /** No later one of the first n pages is written over page i. */
  ghost predicate Lasting(pages: seq<Page>, n: nat, i: nat)
    requires n <= |pages|
  {
    i < n && forall j :: i < j < n ==> !SameFile(pages[i].slug, pages[j].slug)
  }

  /** Each of the first n pages has its file. */
  ghost predicate PagesShown(snap: Snapshot, n: nat, site: SiteData, files: Files)
    requires n <= |snap.pages|
  {
    forall i {:trigger Lasting(snap.pages, n, i)} :: 0 <= i < n && Lasting(snap.pages, n, i) ==>
      exists path :: PageFileAt(files, path, snap.pages[i], snap, site)
  }

  ghost predicate PathOfOneOf(path: string, pages: seq<Page>, n: nat)
    requires n <= |pages|
  {
    exists i :: 0 <= i < n && IsPathOf(path, pages[i].slug)
  }

  lemma PageFileWritten(snap: Snapshot, n: nat, site: SiteData, rest: seq<Write>, i: nat)
    requires i < n <= |snap.pages| && PageWrites(snap.pages[..n], snap, site).Ok?
    requires forall j :: 0 <= j < |rest| ==> rest[j].path != PagePath(snap.pages[i].slug)
    requires Lasting(snap.pages, n, i)
    ensures var files := Stored(PageWrites(snap.pages[..n], snap, site).value + rest);
            PageFileAt(files, PagePath(snap.pages[i].slug), snap.pages[i], snap, site)
  {
    var pages := snap.pages[..n];
    var writes := PageWrites(pages, snap, site).value;
    PageWriteAt(pages, snap, site, i);
    forall j | i < j < |writes| ensures writes[j].path != writes[i].path {
      PageWriteAt(pages, snap, site, j);
      SameFileIffSamePath(pages[i].slug, pages[j].slug);
    }
    LastWriteStays(writes + rest, i);
    PageDisplays(pages[i], snap, site);
  }

  lemma PagesWrittenShow(snap: Snapshot, n: nat, site: SiteData, rest: seq<Write>)
    requires n <= |snap.pages| && PageWrites(snap.pages[..n], snap, site).Ok?
    requires forall j, slug :: 0 <= j < |rest| ==> rest[j].path != PagePath(slug)
    ensures PagesShown(snap, n, site, Stored(PageWrites(snap.pages[..n], snap, site).value + rest))
  {
    var files := Stored(PageWrites(snap.pages[..n], snap, site).value + rest);
    forall i | 0 <= i < n && Lasting(snap.pages, n, i)
      ensures exists path :: PageFileAt(files, path, snap.pages[i], snap, site)
    {
      PageFileWritten(snap, n, site, rest, i);
      assert PageFileAt(files, PagePath(snap.pages[i].slug), snap.pages[i], snap, site);
    }
  }

  lemma OneOfTwoLists(writes: seq<Write>, rest: seq<Write>, path: string)
    requires path in Stored(writes + rest)
    ensures (exists i :: 0 <= i < |writes| && writes[i].path == path)
         || (exists j :: 0 <= j < |rest| && rest[j].path == path)
  {
    OnlyWrittenPaths(writes + rest, path);
    var i :| 0 <= i < |writes + rest| && (writes + rest)[i].path == path;
    if i < |writes| {
      assert writes[i].path == path;
    } else {
      assert rest[i - |writes|].path == path;
    }
  }

  lemma OnlyPagesAndRest(snap: Snapshot, n: nat, site: SiteData, rest: seq<Write>, path: string)
    requires n <= |snap.pages| && PageWrites(snap.pages[..n], snap, site).Ok?
    requires path in Stored(PageWrites(snap.pages[..n], snap, site).value + rest)
    ensures PathOfOneOf(path, snap.pages, n) || exists j :: 0 <= j < |rest| && rest[j].path == path
  {
    var pages := snap.pages[..n];
    var writes := PageWrites(pages, snap, site).value;
    OneOfTwoLists(writes, rest, path);
    if i :| 0 <= i < |writes| && writes[i].path == path {
      WriteOfPage(pages, snap, site, i);
      assert IsPathOf(path, snap.pages[i].slug);
    }
  }

  lemma WriteOfPage(pages: seq<Page>, snap: Snapshot, site: SiteData, i: nat)
    requires PageWrites(pages, snap, site).Ok? && i < |PageWrites(pages, snap, site).value|
    ensures i < |pages| && IsPathOf(PageWrites(pages, snap, site).value[i].path, pages[i].slug)
  {
    PageWriteAt(pages, snap, site, if i < |pages| then i else 0);
  }

  // ---- The other files, and the whole site ----

  ghost predicate RobotsSays(text: string, domain: string) {
    text == "User-agent: *\nAllow: /\n"
            + if domain == "" then "" else "Sitemap: https://" + domain + "/sitemap.xml\n"
  }

  /** The sitemap lists the slugs of the pages in lexical order. */
  ghost predicate SitemapSays(text: string, snap: Snapshot) {
    exists slugs ::
      && InLexicalOrder(slugs)
      && multiset(slugs) == multiset(Slugs(snap.pages))
      && Lists(text, snap.website.domain, slugs)
  }

  ghost predicate FixedShown(snap: Snapshot, files: Files) {
    && "styles.css" in files && files["styles.css"] == Stylesheet
    && "sitemap.xml" in files && files["sitemap.xml"].SitemapFile? && SitemapSays(files["sitemap.xml"].text, snap)
    && "robots.txt" in files && files["robots.txt"].RobotsFile?
    && RobotsSays(files["robots.txt"].text, snap.website.domain)
  }

  /** A file for each page, the three fixed files, and nothing else. */
  ghost predicate FilesShown(snap: Snapshot, site: SiteData, files: Files) {
    && PagesShown(snap, |snap.pages|, site, files)
    && FixedShown(snap, files)
    && OnlyFiles(snap, files)
  }

  ghost predicate OnlyFiles(snap: Snapshot, files: Files) {
    forall path :: path in files ==> FixedName(path) || PathOfOneOf(path, snap.pages, |snap.pages|)
  }

  predicate FixedName(path: string) {
    path == "styles.css" || path == "sitemap.xml" || path == "robots.txt"
  }

  lemma FixedNames(fixed: seq<Write>, snap: Snapshot)
    requires fixed == FixedWrites(snap)
    ensures |fixed| == 3 && forall j :: 0 <= j < |fixed| ==> FixedName(fixed[j].path)
  {
  }

  ghost predicate SiteShown(snap: Snapshot, basePath: string, year: int, files: Files) {
    exists site :: SiteDataIs(snap, basePath, year, site) && FilesShown(snap, site, files)
  }

  lemma FixedAreNoPages(snap: Snapshot)
    ensures forall j, slug :: 0 <= j < 3 ==> FixedWrites(snap)[j].path != PagePath(slug)
  {
    forall slug ensures PagePath(slug) !in {"styles.css", "sitemap.xml", "robots.txt"} {
      if !Root(slug) {
        assert PagePath(slug)[|slug|] == '/';
      }
    }
  }

  lemma FixedWritten(snap: Snapshot, before: seq<Write>)
    ensures FixedShown(snap, Stored(before + FixedWrites(snap)))
  {
    var f := FixedWrites(snap);
    StoredThree(before, f[0], f[1], f[2]);
    SortedIsLexical(Slugs(snap.pages));
    assert Lists(f[1].file.text, snap.website.domain, Sorted(Slugs(snap.pages)));
  }

  lemma NoOtherFiles(snap: Snapshot, site: SiteData)
    requires PageWrites(snap.pages, snap, site).Ok?
    ensures OnlyFiles(snap, Stored(PageWrites(snap.pages, snap, site).value + FixedWrites(snap)))
  {
    var n := |snap.pages|;
    assert snap.pages[..n] == snap.pages;
    var fixed := FixedWrites(snap);
    FixedNames(fixed, snap);
    forall path | path in Stored(PageWrites(snap.pages, snap, site).value + fixed)
      ensures FixedName(path) || PathOfOneOf(path, snap.pages, n)
    {
      OnlyPagesAndRest(snap, n, site, fixed, path);
    }
  }

  /** What a successful build leaves: one page file per page, each showing its page, and the three fixed files. */
  lemma SiteDisplays(snap: Snapshot, basePath: string, year: int)
    requires Buildable(snap)
    ensures SiteShown(snap, basePath, year, Generated(snap, basePath, year))
  {
    BuildsIffBuildable(snap, basePath, year);
    var site := SiteOf(snap, basePath, year);
    var n := |snap.pages|;
    assert snap.pages[..n] == snap.pages;
    var writes := PageWrites(snap.pages, snap, site).value;
    var fixed := FixedWrites(snap);
    var files := Stored(writes + fixed);
    SiteDataDisplays(snap, basePath, year);
    FixedAreNoPages(snap);
    PagesWrittenShow(snap, n, site, fixed);
    FixedWritten(snap, writes);
    NoOtherFiles(snap, site);
    assert FilesShown(snap, site, files);
  }

  // ---- A build that stops ----

  ghost predicate DecodableBefore(snap: Snapshot, n: nat)
    requires n <= |snap.pages|
  {
    forall j :: 0 <= j < n ==> AllDecodable(snap.pages[j].sections, |snap.pages[j].sections|, snap)
  }

  /** The first page with a bad section decides: its error is the build's, and the pages before it have their files. */
  ghost predicate StopShown(snap: Snapshot, site: SiteData, n: nat, err: BuildError, files: Files) {
    && n < |snap.pages|
    && PageFails(snap.pages[n], snap, err)
    && DecodableBefore(snap, n)
    && PagesShown(snap, n, site, files)
    && forall path :: path in files ==> PathOfOneOf(path, snap.pages, n)
  }

  ghost predicate FailureShown(snap: Snapshot, basePath: string, year: int, err: BuildError, files: Files) {
    exists site, n :: SiteDataIs(snap, basePath, year, site) && StopShown(snap, site, n, err, files)
  }

  lemma WrittenAreDecodable(snap: Snapshot, n: nat, site: SiteData)
    requires n <= |snap.pages| && PageWrites(snap.pages[..n], snap, site).Ok?
    ensures DecodableBefore(snap, n)
  {
    forall j | 0 <= j < n ensures AllDecodable(snap.pages[j].sections, |snap.pages[j].sections|, snap) {
      PageWriteAt(snap.pages[..n], snap, site, j);
      PageDisplays(snap.pages[j], snap, site);
    }
  }

  lemma OnlyTheirFiles(snap: Snapshot, n: nat, site: SiteData, files: Files)
    requires n <= |snap.pages| && PageWrites(snap.pages[..n], snap, site).Ok?
    requires files == Stored(PageWrites(snap.pages[..n], snap, site).value)
    ensures forall path :: path in files ==> PathOfOneOf(path, snap.pages, n)
  {
    var writes := PageWrites(snap.pages[..n], snap, site).value;
    assert writes + [] == writes;
    forall path | path in files ensures PathOfOneOf(path, snap.pages, n) {
      OnlyPagesAndRest(snap, n, site, [], path);
    }
  }

  lemma FailureDisplays(snap: Snapshot, basePath: string, year: int, err: BuildError, files: Files)
    requires BuildStops(snap, basePath, year, err, files)
    ensures FailureShown(snap, basePath, year, err, files)
  {
    var site := SiteOf(snap, basePath, year);
    SiteDataDisplays(snap, basePath, year);
    var n :| 0 <= n < |snap.pages|
      && StopsAt(snap, site, n)
      && err == PageOf(snap.pages[n], snap, site).error
      && files == FirstPages(snap, site, n);
    var writes := PageWrites(snap.pages[..n], snap, site).value;
    assert writes + [] == writes;
    PagesWrittenShow(snap, n, site, []);
    PageDisplays(snap.pages[n], snap, site);
    WrittenAreDecodable(snap, n, site);
    OnlyTheirFiles(snap, n, site, files);
    assert StopShown(snap, site, n, err, files);
  }

  /** A build succeeds exactly when there is a page and every section of a known type holds an object or nothing. */
  lemma BuildableIffDecodable(snap: Snapshot)
    ensures Buildable(snap) <==> snap.pages != [] && DecodableBefore(snap, |snap.pages|)
  {
    forall p | p in snap.pages ensures PageBuildable(p, snap) <==> AllDecodable(p.sections, |p.sections|, snap) {
      PageBuildableIffDecodable(p, snap);
    }
  }

  lemma PageBuildableIffDecodable(p: Page, snap: Snapshot)
    ensures PageBuildable(p, snap) <==> AllDecodable(p.sections, |p.sections|, snap)
  {
    forall content: Json.Raw ensures Json.Decode(content).Ok? <==> exists d :: Holds(content, d) {
      if Json.Decode(content).Ok? {
        assert Holds(content, Json.Decode(content).value);
      }
    }
    if AllDecodable(p.sections, |p.sections|, snap) {
      forall s | s in p.sections && s.blockType in snap.blockTypes ensures Json.Decode(s.content).Ok? {
        var i :| 0 <= i < |p.sections| && p.sections[i] == s;
        assert !Undecodable(p.sections, i, snap);
      }
    }
  }
}
