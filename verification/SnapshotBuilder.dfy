/** Assembling the content bundle of a website (internal/publish/snapshot.go). */
module SnapshotBuilder {
  import opened Results
  import opened Snapshots
  import opened Ordered
  import opened Queries
  import opened MediaClosure
  import opened Site
  import opened SiteProperties
  import opened Content
  import opened ContentProtocol

  datatype SnapshotError = WebsiteNotFound | BadMediaID

  // ---- Specification ----

  /** One page with its visible sections in order. */
  ghost predicate IsPageOf(db: Database, tenant: Id, id: Id, page: Page) {
    && id in db.pages
    && page.title == db.pages[id].data.title && page.slug == db.pages[id].data.slug
    && page.seoTitle == db.pages[id].data.seoTitle && page.seoDescription == db.pages[id].data.seoDescription
    && exists ids :: IsVisibleListing(db.sections, id, tenant, ids) && page.sections == SectionData(db.sections, ids)
  }

  ghost predicate ArePagesOf(db: Database, tenant: Id, ids: seq<Id>, pages: seq<Page>) {
    |pages| == |ids| && forall i :: 0 <= i < |ids| ==> IsPageOf(db, tenant, ids[i], pages[i])
  }

  /** Everything of a snapshot but its media. */
  ghost predicate IsDraftOf(db: Database, tenant: Id, website: Id, snap: Snapshot) {
    && website in db.websites && db.websites[website].tenant == tenant
    && snap.website == db.websites[website].website
    && IsActiveBlocks(db.types, tenant, snap.blockTypes)
    && exists ids :: IsVisibleListing(db.pages, website, tenant, ids) && ArePagesOf(db, tenant, ids, snap.pages)
  }

  function Images(snap: Snapshot): set<string> {
    SiteImages(snap.website, snap.pages, snap.blockTypes)
  }

  /** A snapshot of one state of the store: its media are the tenant's rows whose ids the site names. */
  ghost predicate IsSnapshotOf(
    db: Database, tenant: Id, website: Id, uuidOf: string -> Option<Id>, snap: Snapshot)
  {
    && IsDraftOf(db, tenant, website, snap)
    && (forall s :: s in Images(snap) ==> uuidOf(s).Some?)
    && snap.media == map id | id in TenantMedia(db.media, tenant) && (exists s :: s in Images(snap) && uuidOf(s) == Some(id))
                         :: TenantMedia(db.media, tenant)[id]
  }

  // ---- What a snapshot of a sound store is good for ----

  lemma ListedPagesBuild(db: Database, tenant: Id, ids: seq<Id>, snap: Snapshot)
    requires SectionsOk(db.types, db.sections) && ArePagesOf(db, tenant, ids, snap.pages)
    requires forall key :: key in snap.blockTypes ==> ActiveType(db.types, tenant, key)
    ensures forall p :: p in snap.pages ==> PageBuildable(p, snap)
  {
  }

  lemma DraftFits(db: Database, tenant: Id, website: Id, snap: Snapshot)
    requires DatabaseOk(db) && IsDraftOf(db, tenant, website, snap)
    ensures forall p :: p in snap.pages ==> PageBuildable(p, snap)
  {
    var ids :| IsVisibleListing(db.pages, website, tenant, ids) && ArePagesOf(db, tenant, ids, snap.pages);
    ListedPagesBuild(db, tenant, ids, snap);
  }

  lemma DraftHasGoodSlugs(db: Database, tenant: Id, website: Id, snap: Snapshot)
    requires DatabaseOk(db) && IsDraftOf(db, tenant, website, snap)
    ensures GoodSlugs(snap.pages)
  {
  }

  /** A snapshot of a sound store builds exactly when a page is visible, writes each page to its own file, and
      builds the same site as with the tenant's whole media table. */
  lemma SnapshotBuilds(
    db: Database, tenant: Id, website: Id, uuidOf: string -> Option<Id>, snap: Snapshot, basePath: string, year: int)
    requires DatabaseOk(db) && "" !in db.media && (forall id :: id in db.media ==> uuidOf(id) == Some(id))
    requires IsSnapshotOf(db, tenant, website, uuidOf, snap)
    ensures Buildable(snap) <==> snap.pages != []
    ensures GoodSlugs(snap.pages)
    ensures Writes(snap, basePath, year) == Writes(snap.(media := TenantMedia(db.media, tenant)), basePath, year)
  {
    DraftFits(db, tenant, website, snap);
    DraftHasGoodSlugs(db, tenant, website, snap);
    var table := TenantMedia(db.media, tenant);
    assert Embeds(snap.media, table, Images(snap)) by {
      forall id | id in Images(snap) && id in table ensures id in snap.media {
        assert uuidOf(id) == Some(id);
      }
    }
    EmbeddedMediaIsEnough(snap, table, basePath, year);
  }

  // ---- The loops of the source ----

  method ActiveBlocks(types: Types, tenant: Id) returns (blocks: map<string, BlockType>)
    ensures IsActiveBlocks(types, tenant, blocks)
  {
    blocks := map[];
    var rows := set id | id in types && types[id].tenant == tenant && types[id].active;
    var left := rows;
    while left != {}
      invariant left <= rows
      invariant forall key :: key in blocks ==>
                  exists id :: id in rows && types[id].key == key && types[id].block == blocks[key]
      invariant forall id :: id in rows - left ==> types[id].key in blocks
    {
      var id :| id in left;
      left := left - {id};
      blocks := blocks[types[id].key := types[id].block];
    }
    forall key ensures key in blocks <==> ActiveType(types, tenant, key) {
      if ActiveType(types, tenant, key) {
        var id :| id in types && IsType(types, id, tenant, key) && types[id].active;
        assert id in rows - left;
      }
    }
  }

  function PageImages(sections: seq<Section>, blocks: map<string, BlockType>): set<string> {
    set s, id | s in sections && s.blockType in blocks && id in CollectedFrom(blocks[s.blockType].fields, s.content) :: id
  }

  lemma AnotherPageImages(website: Website, pages: seq<Page>, p: Page, blocks: map<string, BlockType>)
    ensures SiteImages(website, pages + [p], blocks) == SiteImages(website, pages, blocks) + PageImages(p.sections, blocks)
  {
  }

  method ReadPage(db: Database, tenant: Id, blocks: map<string, BlockType>, id: Id)
    returns (page: Page, found: set<string>)
    requires id in db.pages
    ensures IsPageOf(db, tenant, id, page)
    ensures found == PageImages(page.sections, blocks)
  {
    var ids := ListVisibleRows(db.sections, id, tenant);
    var sections: seq<Section> := [];
    found := {};
    for i := 0 to |ids|
      invariant sections == SectionData(db.sections, ids)[..i]
      invariant found == PageImages(sections, blocks)
    {
      var s := db.sections[ids[i]].data;
      ghost var before := sections;
      if s.blockType in blocks {
        var images := CollectMediaIDs(blocks[s.blockType].fields, s.content);
        found := found + set image | image in images;
      }
      sections := sections + [s];
      assert forall q :: q in sections <==> q in before || q == s;
    }
    assert sections == SectionData(db.sections, ids);
    var p := db.pages[id].data;
    page := Page(p.title, p.slug, p.seoTitle, p.seoDescription, sections);
  }

  method ReadPages(db: Database, tenant: Id, website: Id, site: Website, blocks: map<string, BlockType>)
    returns (pages: seq<Page>, images: set<string>)
    ensures exists ids :: IsVisibleListing(db.pages, website, tenant, ids) && ArePagesOf(db, tenant, ids, pages)
    ensures images == SiteImages(site, pages, blocks)
  {
    var ids := ListVisibleRows(db.pages, website, tenant);
    pages := [];
    images := if site.settings.logoMediaID != "" then {site.settings.logoMediaID} else {};
    assert images == SiteImages(site, pages, blocks);
    for i := 0 to |ids|
      invariant ArePagesOf(db, tenant, ids[..i], pages)
      invariant images == SiteImages(site, pages, blocks)
    {
      var page, found := ReadPage(db, tenant, blocks, ids[i]);
      AnotherPageImages(site, pages, page, blocks);
      images := images + found;
      pages := pages + [page];
    }
    assert ids[..|ids|] == ids;
  }

  /** SELECT ... WHERE tenant_id AND id = ANY(ids::uuid[]): fails unless every id can be cast. */
  method ReadMedia(media: map<Id, MediaRow>, tenant: Id, images: set<string>, uuidOf: string -> Option<Id>)
    returns (r: Result<MediaTable, SnapshotError>)
    ensures r.Ok? <==> forall s :: s in images ==> uuidOf(s).Some?
    ensures r.Ok? ==>
      r.value == map id | id in TenantMedia(media, tenant) && (exists s :: s in images && uuidOf(s) == Some(id))
                   :: TenantMedia(media, tenant)[id]
    ensures r.Ok? ==> forall id ::
      if id in media && media[id].tenant == tenant && exists s :: s in images && uuidOf(s) == Some(id)
      then id in r.value && r.value[id] == media[id].media
      else id !in r.value
    ensures r.Err? ==> r == Err(BadMediaID)
  {
    var wanted: set<Id> := {};
    var left := images;
    while left != {}
      invariant left <= images
      invariant forall s :: s in images - left ==> uuidOf(s).Some?
      invariant forall id :: id in wanted <==> exists s :: s in images - left && uuidOf(s) == Some(id)
    {
      var s :| s in left;
      left := left - {s};
      match uuidOf(s) {
        case None => return Err(BadMediaID);
        case Some(id) => wanted := wanted + {id};
      }
    }
    assert images - left == images;
    r := Ok(map id | id in media && media[id].tenant == tenant && id in wanted :: media[id].media);
  }

  /** `uuidOf` is the database's cast from text; it takes the ids of rows to themselves. */
  method BuildSnapshot(db: Database, tenant: Id, website: Id, uuidOf: string -> Option<Id>)
    returns (r: Result<Snapshot, SnapshotError>)
    ensures r.Ok? ==> IsSnapshotOf(db, tenant, website, uuidOf, r.value)
    ensures r == Err(WebsiteNotFound) <==> website !in db.websites || db.websites[website].tenant != tenant
    ensures r == Err(BadMediaID) ==>
      exists draft :: IsDraftOf(db, tenant, website, draft) && exists s :: s in Images(draft) && uuidOf(s).None?
  {
    var blocks := ActiveBlocks(db.types, tenant);
    if website !in db.websites || db.websites[website].tenant != tenant {
      return Err(WebsiteNotFound);
    }
    var site := db.websites[website].website;
    var pages, images := ReadPages(db, tenant, website, site, blocks);
    ghost var draft := Snapshot(site, pages, map[], blocks);
    assert IsDraftOf(db, tenant, website, draft) && images == Images(draft);
    var media := ReadMedia(db.media, tenant, images, uuidOf);
    match media {
      case Err(e) => r := Err(e);
      case Ok(table) =>
        r := Ok(Snapshot(site, pages, table, blocks));
        assert Images(r.value) == images;
    }
  }
}
