/** What a successful build is guaranteed to contain (internal/generator/generator.go, internal/publish/snapshot.go). */
module SiteProperties {
  import opened Json
  import opened Snapshots
  import opened Render
  import opened Sitemap
  import opened Slug
  import opened MediaClosure
  import opened Site

  /** What the page handlers guarantee of a website's pages: valid slugs, no two alike. */
  ghost predicate GoodSlugs(pages: seq<Page>) {
    && (forall i :: 0 <= i < |pages| ==> ValidSlug(pages[i].slug))
    && (forall i, j :: 0 <= i < j < |pages| ==> pages[i].slug != pages[j].slug)
  }

  // ---- Distinct writes lose nothing ----

  ghost predicate DistinctPaths(writes: seq<Write>) {
    forall i, j :: 0 <= i < j < |writes| ==> writes[i].path != writes[j].path
  }

  function Paths(writes: seq<Write>): set<string> {
    set i | 0 <= i < |writes| :: writes[i].path
  }

  lemma {:induction false} StoredPaths(writes: seq<Write>)
    requires DistinctPaths(writes)
    ensures Stored(writes).Keys == Paths(writes)
    ensures |Stored(writes)| == |writes|
  {
    if writes != [] {
      var n := |writes| - 1;
      var before := Stored(writes[..n]);
      StoredPaths(writes[..n]);
      AnotherPath(writes, n);
      assert Stored(writes).Keys == before.Keys + {writes[n].path};
    }
  }

  lemma AnotherPath(writes: seq<Write>, n: nat)
    requires DistinctPaths(writes) && |writes| == n + 1
    ensures Paths(writes) == Paths(writes[..n]) + {writes[n].path}
    ensures writes[n].path !in Paths(writes[..n])
  {
  }

  // ---- Paths ----

  /** Above the last slash, no dot: nothing in a site directory lies below a file. */
  ghost predicate PlainPath(path: string) {
    && '.' in path
    && forall i :: 0 <= i < |path| && path[i] == '/' ==> '.' !in path[..i]
  }

  lemma PagePathIsPlain(slug: string)
    requires ValidSlug(slug)
    ensures PlainPath(PagePath(slug))
    ensures if slug == "home" then PagePath(slug) == "index.html" else '/' in PagePath(slug)
    ensures !NotAPage(PagePath(slug))
  {
  }

  lemma PagePathIsInjective(s: string, t: string)
    requires ValidSlug(s) && ValidSlug(t) && PagePath(s) == PagePath(t)
    ensures s == t
  {
    PagePathIsPlain(s);
    PagePathIsPlain(t);
    if s != "home" && t != "home" {
      assert s == PagePath(s)[..|s|] && t == PagePath(t)[..|t|];
    }
  }

  lemma NothingBelowAFile(p: string, q: string)
    requires PlainPath(p) && PlainPath(q)
    ensures !(p + "/" <= q)
  {
    if |p| < |q| && q[|p|] == '/' {
      assert '.' !in q[..|p|];
      assert q[..|p|] != p;
    }
    assert (p + "/")[..|p|] == p && (p + "/")[|p|] == '/';
  }

  /** The file a URL path names below a directory: a path that ends in a slash names an index page. */
  function Resolved(href: string): string
    requires href != ""
  {
    href[1..] + if href[|href| - 1] == '/' then "index.html" else ""
  }

  lemma HrefResolves(slug: string)
    requires ValidSlug(slug)
    ensures PageHref(slug) != "" && Resolved(PageHref(slug)) == PagePath(slug)
  {
    if slug != "home" {
      assert PageHref(slug)[1..] == slug + "/";
      assert slug + "/" + "index.html" == slug + "/index.html";
    }
  }

  // ---- The output map ----

  lemma PageWritesAreDistinct(snap: Snapshot, site: SiteData)
    requires GoodSlugs(snap.pages) && PageWrites(snap.pages, snap, site).Ok?
    ensures var writes := PageWrites(snap.pages, snap, site).value;
            && DistinctPaths(writes)
            && forall i :: 0 <= i < |writes| ==>
                 PlainPath(writes[i].path) && !NotAPage(writes[i].path)
  {
    var pages := snap.pages;
    var writes := PageWrites(pages, snap, site).value;
    forall i | 0 <= i < |pages|
      ensures |writes| == |pages| && writes[i].path == PagePath(pages[i].slug)
      ensures PlainPath(PagePath(pages[i].slug))
      ensures !NotAPage(PagePath(pages[i].slug))
    {
      PageWriteAt(pages, snap, site, i);
      PagePathIsPlain(pages[i].slug);
    }
    forall i, j | 0 <= i < j < |pages| ensures writes[i].path != writes[j].path {
      if PagePath(pages[i].slug) == PagePath(pages[j].slug) {
        PagePathIsInjective(pages[i].slug, pages[j].slug);
      }
    }
  }

  lemma FixedPaths(snap: Snapshot)
    ensures DistinctPaths(FixedWrites(snap))
    ensures forall i :: 0 <= i < 3 ==> NotAPage(FixedWrites(snap)[i].path)
  {
  }

  predicate NotAPage(path: string) {
    '.' in path && '/' !in path && path != "" && path[0] != 'i'
  }

  lemma WritesAreDistinct(snap: Snapshot, basePath: string, year: int)
    requires Buildable(snap) && GoodSlugs(snap.pages)
    ensures Writes(snap, basePath, year).Ok? && DistinctPaths(Writes(snap, basePath, year).value)
    ensures forall i :: 0 <= i < |Writes(snap, basePath, year).value| ==>
              PlainPath(Writes(snap, basePath, year).value[i].path)
  {
    BuildsIffBuildable(snap, basePath, year);
    var site := SiteOf(snap, basePath, year);
    PageWritesAreDistinct(snap, site);
    FixedPaths(snap);
    assert Writes(snap, basePath, year).value == PageWrites(snap.pages, snap, site).value + FixedWrites(snap);
  }

  /** One file per page plus three, each page's own view model under its own path, and no file below a file. */
  lemma OutputMap(snap: Snapshot, basePath: string, year: int)
    requires Buildable(snap) && GoodSlugs(snap.pages)
    ensures var files := Generated(snap, basePath, year);
            var site := SiteOf(snap, basePath, year);
            && |files| == |snap.pages| + 3
            && (forall i :: 0 <= i < |snap.pages| ==>
                  && PageOf(snap.pages[i], snap, site).Ok?
                  && PagePath(snap.pages[i].slug) in files
                  && files[PagePath(snap.pages[i].slug)] == PageFile(PageOf(snap.pages[i], snap, site).value))
            && (forall i :: 0 <= i < 3 ==>
                  && FixedWrites(snap)[i].path in files
                  && files[FixedWrites(snap)[i].path] == FixedWrites(snap)[i].file)
            && (forall p, q :: p in files && q in files ==> !(p + "/" <= q))
  {
    WritesAreDistinct(snap, basePath, year);
    var writes := Writes(snap, basePath, year).value;
    var site := SiteOf(snap, basePath, year);
    PageWriteAt(snap.pages, snap, site, 0);
    StoredPaths(writes);
    forall i | 0 <= i < |snap.pages|
      ensures PageOf(snap.pages[i], snap, site).Ok?
      ensures PagePath(snap.pages[i].slug) in Stored(writes)
      ensures Stored(writes)[PagePath(snap.pages[i].slug)] == PageFile(PageOf(snap.pages[i], snap, site).value)
    {
      PageWriteAt(snap.pages, snap, site, i);
      LastWriteStays(writes, i);
    }
    forall i | 0 <= i < 3
      ensures FixedWrites(snap)[i].path in Stored(writes)
      ensures Stored(writes)[FixedWrites(snap)[i].path] == FixedWrites(snap)[i].file
    {
      LastWriteStays(writes, |snap.pages| + i);
    }
    forall p, q | p in Stored(writes) && q in Stored(writes) ensures !(p + "/" <= q) {
      NothingBelowAFile(p, q);
    }
  }

  /** Every navigation link of the site, its base path removed, leads to a file of the site. */
  lemma NavResolves(snap: Snapshot, basePath: string, year: int, i: nat)
    requires Buildable(snap) && GoodSlugs(snap.pages) && i < |snap.pages|
    ensures var site := SiteOf(snap, basePath, year);
            var href := site.nav[i].href;
            && site.basePath < href
            && href[|site.basePath|..] == PageHref(snap.pages[i].slug)
            && Resolved(href[|site.basePath|..]) in Generated(snap, basePath, year)
            && Generated(snap, basePath, year)[Resolved(href[|site.basePath|..])].PageFile?
            && Generated(snap, basePath, year)[Resolved(href[|site.basePath|..])].page.title == site.nav[i].title
  {
    OutputMap(snap, basePath, year);
    HrefResolves(snap.pages[i].slug);
  }

  // ---- Media closure for whole sites ----

  /** Every id a snapshot embeds: the logo and what the sections reference. */
  function SiteImages(website: Website, pages: seq<Page>, blockTypes: map<string, BlockType>): set<string> {
    {website.settings.logoMediaID} - {""}
    + set p, s, id | p in pages && s in p.sections && s.blockType in blockTypes
        && id in CollectedFrom(blockTypes[s.blockType].fields, s.content) :: id
  }

  lemma {:induction false} BlocksClosed(sections: seq<Section>, snap: Snapshot, table: MediaTable, site: SiteData)
    requires forall s :: s in sections && s.blockType in snap.blockTypes ==>
               SameLookups(snap.media, table, CollectedFrom(snap.blockTypes[s.blockType].fields, s.content) + {""})
    ensures BlocksOf(sections, snap, site) == BlocksOf(sections, snap.(media := table), site)
  {
    if sections != [] {
      var n := |sections| - 1;
      var s := sections[n];
      BlocksClosed(sections[..n], snap, table, site);
      if s.blockType in snap.blockTypes && Decode(s.content).Ok? {
        var schema := snap.blockTypes[s.blockType];
        var d := Decode(s.content).value;
        if s.content.Empty? {
          assert Collected(schema.fields, d) == {};
        }
        BlockClosed(schema.fields, d, FirstNonEmpty(schema.layout.variant, "default"), snap.media, table);
      }
    }
  }

  lemma {:induction false} PagesClosed(pages: seq<Page>, snap: Snapshot, table: MediaTable, site: SiteData)
    requires forall p, s :: p in pages && s in p.sections && s.blockType in snap.blockTypes ==>
               SameLookups(snap.media, table, CollectedFrom(snap.blockTypes[s.blockType].fields, s.content) + {""})
    ensures PageWrites(pages, snap, site) == PageWrites(pages, snap.(media := table), site)
  {
    if pages != [] {
      var n := |pages| - 1;
      PagesClosed(pages[..n], snap, table, site);
      assert pages[n] in pages;
      BlocksClosed(pages[n].sections, snap, table, site);
    }
  }

  /** The embedded media: rows of the table, among them every image of the site that has a row. */
  ghost predicate Embeds(media: MediaTable, table: MediaTable, images: set<string>) {
    && (forall id :: id in media ==> id in table && media[id] == table[id])
    && (forall id :: id in images && id in table ==> id in media)
  }

  /** A snapshot that embeds its images builds the same site as one with the whole media table. */
  lemma EmbeddedMediaIsEnough(snap: Snapshot, table: MediaTable, basePath: string, year: int)
    requires "" !in table
    requires Embeds(snap.media, table, SiteImages(snap.website, snap.pages, snap.blockTypes))
    ensures Writes(snap, basePath, year) == Writes(snap.(media := table), basePath, year)
  {
    var images := SiteImages(snap.website, snap.pages, snap.blockTypes);
    assert SameLookups(snap.media, table, images + {""});
    forall p, s | p in snap.pages && s in p.sections && s.blockType in snap.blockTypes
      ensures SameLookups(snap.media, table, CollectedFrom(snap.blockTypes[s.blockType].fields, s.content) + {""})
    {
      forall id | id in CollectedFrom(snap.blockTypes[s.blockType].fields, s.content) ensures id in images {
      }
    }
    var logo := snap.website.settings.logoMediaID;
    assert logo in images + {""};
    PagesClosed(snap.pages, snap, table, SiteOf(snap, basePath, year));
    assert SiteOf(snap, basePath, year) == SiteOf(snap.(media := table), basePath, year);
    assert FixedWrites(snap) == FixedWrites(snap.(media := table));
  }
}
