/** What the content handlers promise the publisher, over whole runs of interleaved requests. */
module ContentTheorems {
  import opened Results
  import opened Json
  import opened Schema
  import opened Normalize
  import opened Snapshots
  import opened Slug
  import opened Ordered
  import opened Site
  import opened SiteProperties
  import opened Content
  import opened ContentProtocol
  import opened ContentInvariant
  import opened SnapshotBuilder

  // ---- Snapshots taken while other requests run ----

  /** A section that stops the build of a snapshot, and whose type was active for it but is archived now. */
  ghost predicate Outdated(types: Types, tenant: Id, snap: Snapshot, section: Section) {
    && section.blockType in snap.blockTypes
    && Decode(section.content).Err?
    && HasType(types, tenant, section.blockType) && !ActiveType(types, tenant, section.blockType)
  }

  /** Whatever ran in between: a returned snapshot has distinct valid slugs and renderable schemas, builds the same
      site as with the whole media table, and can fail to build only for want of a page or because a block type was
      archived since the snapshot began. */
  lemma ReturnedSnapshots(steps: seq<Step>, s: State, req: Id, basePath: string, year: int)
    requires CleanlyReaches(Initial(), steps, s) && req in s.returned
    ensures var r := s.returned[req];
            && GoodSlugs(r.snap.pages)
            && (forall key :: key in r.snap.blockTypes ==> UniqueKeys(r.snap.blockTypes[key].fields))
            && Writes(r.snap, basePath, year) == Writes(r.snap.(media := r.table), basePath, year)
            && (Buildable(r.snap) || r.snap.pages == []
                || exists p, section :: p in r.snap.pages && section in p.sections
                     && Outdated(s.db.types, r.tenant, r.snap, section))
  {
    StoreStaysSound(steps, s);
    var r := s.returned[req];
    assert ReturnedOk(s.db.types, r);
    forall key | key in r.snap.blockTypes ensures UniqueKeys(r.snap.blockTypes[key].fields) {
      ValidSchemaHasUniqueKeys(r.snap.blockTypes[key].fields, r.snap.blockTypes[key].layout);
    }
    EmbeddedMediaIsEnough(r.snap, r.table, basePath, year);
    if !Buildable(r.snap) && r.snap.pages != [] {
      FailureIsOutdated(s.db.types, r);
    }
  }

  /** The types that sections of a snapshot use, and that it knows, are active. */
  ghost predicate UsesActiveTypes(types: Types, tenant: Id, snap: Snapshot) {
    forall p, section ::
      p in snap.pages && section in p.sections && section.blockType in snap.blockTypes
      ==> ActiveType(types, tenant, section.blockType)
  }

  /** As long as no block type that its sections use has been archived, a returned snapshot builds exactly when it has
      a page. */
  lemma ActiveTypesBuild(steps: seq<Step>, s: State, req: Id)
    requires CleanlyReaches(Initial(), steps, s) && req in s.returned
    requires UsesActiveTypes(s.db.types, s.returned[req].tenant, s.returned[req].snap)
    ensures Buildable(s.returned[req].snap) <==> s.returned[req].snap.pages != []
  {
    ReturnedSnapshots(steps, s, req, "", 0);
  }

  lemma FailureIsOutdated(types: Types, r: Returned)
    requires ReturnedOk(types, r) && !Buildable(r.snap) && r.snap.pages != []
    ensures exists p, section :: p in r.snap.pages && section in p.sections
              && Outdated(types, r.tenant, r.snap, section)
  {
    var p :| p in r.snap.pages && !PageBuildable(p, r.snap);
    var section :| section in p.sections && section.blockType in r.snap.blockTypes && Decode(section.content).Err?;
    assert SectionFits(types, r.tenant, r.snap.blockTypes, section);
    assert Outdated(types, r.tenant, r.snap, section);
  }

  /** Between requests, nothing else can go wrong: a snapshot builds exactly when some page is visible. */
  lemma QuietSnapshots(
    steps: seq<Step>, s: State, tenant: Id, website: Id, uuidOf: string -> Option<Id>, snap: Snapshot)
    requires CleanlyReaches(Initial(), steps, s)
    requires forall id :: id in s.db.media ==> uuidOf(id) == Some(id)
    requires IsSnapshotOf(s.db, tenant, website, uuidOf, snap)
    ensures Buildable(snap) <==> exists id :: Belongs(s.db.pages, website, tenant, id) && s.db.pages[id].visible
    ensures GoodSlugs(snap.pages)
  {
    StoreStaysSound(steps, s);
    SnapshotBuilds(s.db, tenant, website, uuidOf, snap, "", 0);
    var ids :| IsVisibleListing(s.db.pages, website, tenant, ids) && ArePagesOf(s.db, tenant, ids, snap.pages);
    if snap.pages != [] {
      assert ids[0] in ids;
    }
    if id :| Belongs(s.db.pages, website, tenant, id) && s.db.pages[id].visible {
      assert id in ids;
    }
  }

  // ---- A failed schema query ----

  /** When the schema query of an update finds nothing, the section keeps its promise exactly when its type is
      archived or the new content is an object anyway. */
  lemma MisreadUpdate(s: State, req: Id, s1: State, s2: State)
    requires Sound(s) && req in s.requests && s.requests[req].Typed?
    requires Targets(s.db.sections, s.requests[req].section, s.requests[req].tenant)
    requires Enabled(s, ReadSchema(req, None)) && s1 == Next(s, ReadSchema(req, None))
    requires Enabled(s1, StoreSection(req)) && s2 == Next(s1, StoreSection(req))
    ensures var r := s.requests[req];
            && r.section in s2.db.sections
            && s2.db.sections[r.section].data.content == r.content
            && (SectionOk(s2.db.types, r.tenant, s2.db.sections[r.section].data)
                <==> !ActiveType(s.db.types, r.tenant, r.key) || IsObject(r.content))
  {
  }

  // ---- Archiving beside a create and a snapshot ----

  lemma {:induction false} Extend(s: State, steps: seq<Step>, t: State, step: Step)
    requires CleanlyReaches(s, steps, t) && Enabled(t, step) && !Misread(t, step)
    ensures CleanlyReaches(s, steps + [step], Next(t, step))
    decreases |steps|
  {
    if steps == [] {
      assert CleanlyReaches(Next(t, step), [], Next(t, step));
      assert (steps + [step])[1..] == [];
    } else {
      Extend(Next(s, steps[0]), steps[1..], t, step);
      assert (steps + [step])[1..] == steps[1..] + [step];
    }
  }

  ghost predicate Reachable(s: State) { exists steps :: CleanlyReaches(Initial(), steps, s) }

  lemma Goes(s: State, step: Step, t: State)
    requires Reachable(s) && Enabled(s, step) && !Misread(s, step)
    requires Next(s, step).db == t.db && Next(s, step).requests == t.requests
    requires Next(s, step).returned == t.returned && Next(s, step).issued == t.issued
    ensures Reachable(t)
  {
    var steps :| CleanlyReaches(Initial(), steps, s);
    Extend(Initial(), steps, s, step);
  }

  function Busy(db: Database, requests: map<Id, Request>, issued: set<Id>): State {
    State(db, requests, map[], issued)
  }

  ghost predicate BusyReachable(db: Database, requests: map<Id, Request>, issued: set<Id>) {
    Reachable(Busy(db, requests, issued))
  }

  /** A create has read the schema and is about to insert. */
  lemma CreateWaits(
    db: Database, requests: map<Id, Request>, issued: set<Id>, c: Id, tenant: Id, page: Id, b: Id, content: Raw)
    requires BusyReachable(db, requests, issued) && c !in requests
    requires page in db.pages && db.pages[page].tenant == tenant
    requires TypeUpdatable(db.types, b, tenant)
    requires NormalizedContent(db.types[b].block.fields, Doc(Obj(map[]))) == Ok(content)
    ensures BusyReachable(db, requests[c := Inserting(tenant, page, db.types[b].key, content)], issued)
  {
    var key := db.types[b].key;
    var r := Creating(tenant, page, key, Doc(Obj(map[])));
    Goes(Busy(db, requests, issued), BeginCreate(c, tenant, page, key, Doc(Obj(map[]))),
      Busy(db, requests[c := r], issued));
    assert SchemaRead(db.types, r, Some(b)) == Some(Inserting(tenant, page, key, content));
    Goes(Busy(db, requests[c := r], issued), ReadSchema(c, Some(b)),
      Busy(db, requests[c := Inserting(tenant, page, key, content)], issued));
  }

  /** An archive has counted no uses and is about to write. */
  lemma ArchiveWaits(db: Database, requests: map<Id, Request>, issued: set<Id>, a: Id, tenant: Id, b: Id)
    requires BusyReachable(db, requests, issued) && a !in requests
    requires TypeUpdatable(db.types, b, tenant) && !InUse(db.sections, tenant, db.types[b].key)
    ensures BusyReachable(db, requests[a := Archivable(tenant, b)], issued)
  {
    var r := Archiving(tenant, b, db.types[b].key);
    Goes(Busy(db, requests, issued), BeginArchive(a, tenant, b), Busy(db, requests[a := r], issued));
    Goes(Busy(db, requests[a := r], issued), CountUses(a), Busy(db, requests[a := Archivable(tenant, b)], issued));
  }

  /** A snapshot has read the active types. */
  lemma SnapshotWaits(
    db: Database, requests: map<Id, Request>, issued: set<Id>, s: Id, tenant: Id, website: Id,
    blocks: map<string, BlockType>)
    requires BusyReachable(db, requests, issued) && s !in requests && IsActiveBlocks(db.types, tenant, blocks)
    ensures BusyReachable(db, requests[s := Gathering(tenant, website, blocks)], issued)
  {
    Goes(Busy(db, requests, issued), BeginSnapshot(s, tenant, website, blocks),
      Busy(db, requests[s := Gathering(tenant, website, blocks)], issued));
  }

  lemma ArchiveLands(db: Database, requests: map<Id, Request>, issued: set<Id>, a: Id)
    requires BusyReachable(db, requests, issued) && a in requests && requests[a].Archivable?
    ensures BusyReachable(
              db.(types := TypeArchived(db.types, requests[a].id, requests[a].tenant)), requests - {a}, issued)
  {
    Goes(Busy(db, requests, issued), Archive(a), Busy(
      db.(types := TypeArchived(db.types, requests[a].id, requests[a].tenant)), requests - {a}, issued));
  }

  lemma InsertLands(db: Database, requests: map<Id, Request>, issued: set<Id>, c: Id, x: Id)
    requires BusyReachable(db, requests, issued) && c in requests && requests[c].Inserting? && x !in issued
    requires requests[c].page in db.pages && IsNextOrder(db.sections, requests[c].page, 0)
    ensures var r := requests[c];
            var row := Row(r.tenant, r.page, 0, 0, true, Section(r.key, r.content));
            BusyReachable(db.(sections := db.sections[x := row]), requests - {c}, issued + {x})
  {
    var r := requests[c];
    var row := Row(r.tenant, r.page, 0, 0, true, Section(r.key, r.content));
    Goes(Busy(db, requests, issued), InsertSection(c, x, 0, 0),
      Busy(db.(sections := db.sections[x := row]), requests - {c}, issued + {x}));
  }

  lemma UpdateBegins(
    db: Database, requests: map<Id, Request>, issued: set<Id>, u: Id, tenant: Id, x: Id, content: Raw)
    requires BusyReachable(db, requests, issued) && u !in requests && content.Doc? && Targets(db.sections, x, tenant)
    ensures BusyReachable(
              db, requests[u := Typed(tenant, x, db.sections[x].data.blockType, content, None)], issued)
  {
    var begun := Updating(tenant, x, content, None);
    var read := Typed(tenant, x, db.sections[x].data.blockType, content, None);
    Goes(Busy(db, requests, issued), BeginUpdate(u, tenant, x, content, None), Busy(db, requests[u := begun], issued));
    Goes(Busy(db, requests[u := begun], issued), ReadTypeKey(u), Busy(db, requests[u := read], issued));
  }

  /** An update of a section whose type is archived is about to store what it was sent. */
  lemma UpdateWaits(
    db: Database, requests: map<Id, Request>, issued: set<Id>, u: Id, tenant: Id, x: Id, content: Raw)
    requires BusyReachable(db, requests, issued) && u !in requests && content.Doc?
    requires Targets(db.sections, x, tenant) && !ActiveType(db.types, tenant, db.sections[x].data.blockType)
    ensures BusyReachable(db, requests[u := Storing(tenant, x, Some(content), None)], issued)
  {
    UpdateBegins(db, requests, issued, u, tenant, x, content);
    var read := Typed(tenant, x, db.sections[x].data.blockType, content, None);
    var storing := Storing(tenant, x, Some(content), None);
    assert SchemaRead(db.types, read, None) == Some(storing);
    Goes(Busy(db, requests[u := read], issued), ReadSchema(u, None), Busy(db, requests[u := storing], issued));
  }

  lemma UpdateLands(db: Database, requests: map<Id, Request>, issued: set<Id>, u: Id, r: Request, stored: Table<Section>)
    requires r.Storing? && BusyReachable(db, requests[u := r], issued) && u !in requests
    requires Targets(db.sections, r.section, r.tenant)
    requires stored == db.sections[r.section := SectionStored(db.sections[r.section], r.stored, r.visible)]
    ensures BusyReachable(db.(sections := stored), requests, issued)
  {
    assert requests[u := r] - {u} == requests;
    Goes(Busy(db, requests[u := r], issued), StoreSection(u), Busy(db.(sections := stored), requests, issued));
  }

  lemma SnapshotPages(
    db: Database, issued: set<Id>, s: Id, tenant: Id, website: Id, blocks: map<string, BlockType>, ids: seq<Id>)
    requires BusyReachable(db, map[s := Gathering(tenant, website, blocks)], issued)
    requires website in db.websites && db.websites[website].tenant == tenant
    requires IsVisibleListing(db.pages, website, tenant, ids)
    ensures BusyReachable(db,
              map[s := Collecting(tenant, blocks, db.websites[website].website, PageRefs(db.pages, ids), [])], issued)
  {
    var site := db.websites[website].website;
    var begun, paging := map[s := Gathering(tenant, website, blocks)], map[s := Paging(tenant, website, blocks, site)];
    Goes(Busy(db, begun, issued), ReadWebsite(s), Busy(db, paging, issued));
    Goes(Busy(db, paging, issued), ReadPages(s, ids),
      Busy(db, map[s := Collecting(tenant, blocks, site, PageRefs(db.pages, ids), [])], issued));
  }

  lemma SnapshotSections(db: Database, issued: set<Id>, s: Id, r: Request, ref: PageRef, ids: seq<Id>, page: Page)
    requires r.Collecting? && r.left == [ref] && r.pages == [] && BusyReachable(db, map[s := r], issued)
    requires IsVisibleListing(db.sections, ref.id, r.tenant, ids)
    requires page == ref.page.(sections := SectionData(db.sections, ids))
    ensures BusyReachable(db, map[s := r.(left := [], pages := [page])], issued)
  {
    assert [ref][1..] == [] && [] + [page] == [page];
    Goes(Busy(db, map[s := r], issued), ReadSections(s, ids),
      Busy(db, map[s := r.(left := [], pages := [page])], issued));
  }

  lemma SnapshotReturns(db: Database, issued: set<Id>, s: Id, r: Request)
    requires r.Collecting? && r.left == [] && BusyReachable(db, map[s := r], issued)
    ensures exists t :: Reachable(t) && s in t.returned && t.db == db
              && t.returned[s].tenant == r.tenant
              && t.returned[s].snap.pages == r.pages && t.returned[s].snap.blockTypes == r.blocks
  {
    var cast := map id | id in SiteImages(r.site, r.pages, r.blocks) :: id;
    var t := Next(Busy(db, map[s := r], issued), ReadMedia(s, cast));
    Goes(Busy(db, map[s := r], issued), ReadMedia(s, cast), t);
  }

  // ---- The run ----

  /** One website with one visible page and one block type. */
  predicate Shop(db: Database, tenant: Id, website: Id, page: Id, b: Id) {
    && website in db.websites && db.websites[website].tenant == tenant
    && db.pages.Keys == {page} && db.pages[page].parent == website && db.pages[page].tenant == tenant
    && db.pages[page].visible
    && db.sections == map[] && db.types.Keys == {b} && TypeUpdatable(db.types, b, tenant)
  }

  lemma ShopOpens(site: Website, info: PageInfo, key: string, block: BlockType, w: Id, p: Id, b: Id, n: Id)
    returns (db: Database)
    requires ValidSlug(info.slug) && ValidSlug(Hyphened(key)) && GoodBlock(block) && p != b
    ensures Shop(db, n, w, p, b) && BusyReachable(db, map[], {b, p})
    ensures db.types[b].key == key && db.types[b].block == block
  {
    assert CleanlyReaches(Initial(), [], Initial());
    var websites := map[w := WebsiteRow(n, site)];
    var s1 := Busy(Database(websites, map[], map[], map[], map[]), map[], {});
    Goes(Initial(), EditWebsites(websites), s1);
    var types := map[b := TypeRow(n, key, block, true)];
    Goes(s1, CreateType(b, n, key, block), Busy(Database(websites, map[], map[], types, map[]), map[], {b}));
    db := PageOpens(site, info, types, w, p, b, n);
  }

  lemma PageOpens(site: Website, info: PageInfo, types: Types, w: Id, p: Id, b: Id, n: Id) returns (db: Database)
    requires ValidSlug(info.slug) && p != b
    requires types.Keys == {b} && TypeUpdatable(types, b, n)
    requires Reachable(Busy(Database(map[w := WebsiteRow(n, site)], map[], map[], types, map[]), map[], {b}))
    ensures Shop(db, n, w, p, b) && BusyReachable(db, map[], {b, p}) && db.types == types
  {
    var row := Row(n, w, 0, 0, true, info);
    db := Database(map[w := WebsiteRow(n, site)], map[p := row], map[], types, map[]);
    Goes(Busy(db.(pages := map[]), map[], {b}), CreatePage(p, row), Busy(db, map[], {b, p}));
  }

  /** A create that has read the schema, an archive that has counted no uses, a snapshot that has read the types. */
  lemma ThreeWait(
    db: Database, issued: set<Id>, n: Id, w: Id, p: Id, b: Id, content: Raw, blocks: map<string, BlockType>)
    requires Shop(db, n, w, p, b) && BusyReachable(db, map[], issued)
    requires blocks == map[db.types[b].key := db.types[b].block]
    requires NormalizedContent(db.types[b].block.fields, Doc(Obj(map[]))) == Ok(content)
    ensures BusyReachable(db, map[]["c" := Inserting(n, p, db.types[b].key, content)]["a" := Archivable(n, b)]
              ["s" := Gathering(n, w, blocks)], issued)
  {
    var c, a := Inserting(n, p, db.types[b].key, content), Archivable(n, b);
    CreateWaits(db, map[], issued, "c", n, p, b, content);
    ArchiveWaits(db, map[]["c" := c], issued, "a", n, b);
    assert IsType(db.types, b, n, db.types[b].key);
    SnapshotWaits(db, map[]["c" := c]["a" := a], issued, "s", n, w, blocks);
  }

  /** The archive lands before the insert. */
  lemma ArchivedThenInserted(
    db: Database, issued: set<Id>, c: Request, a: Request, s: Request, x: Id, db': Database)
    requires c.Inserting? && a.Archivable? && x !in issued && c.page in db.pages && db.sections == map[]
    requires BusyReachable(db, map[]["c" := c]["a" := a]["s" := s], issued)
    requires db' == db.(types := TypeArchived(db.types, a.id, a.tenant),
                        sections := map[x := Row(c.tenant, c.page, 0, 0, true, Section(c.key, c.content))])
    ensures BusyReachable(db', map["s" := s], issued + {x})
  {
    ArchiveLands(db, map[]["c" := c]["a" := a]["s" := s], issued, "a");
    assert map[]["c" := c]["a" := a]["s" := s] - {"a"} == map["c" := c, "s" := s];
    var archived := db.(types := TypeArchived(db.types, a.id, a.tenant));
    InsertLands(archived, map["c" := c, "s" := s], issued, "c", x);
    assert map["c" := c, "s" := s] - {"c"} == map["s" := s];
    assert archived.sections[x := Row(c.tenant, c.page, 0, 0, true, Section(c.key, c.content))] == db'.sections;
  }

  /** The archive is counted before the insert and lands before it; then an update stores an array as it is. */
  lemma ArrayIsStored(
    db: Database, issued: set<Id>, n: Id, w: Id, p: Id, b: Id, x: Id, blocks: map<string, BlockType>)
    requires Shop(db, n, w, p, b) && BusyReachable(db, map[], issued) && x !in issued
    requires blocks == map[db.types[b].key := db.types[b].block]
    ensures BusyReachable(
              db.(types := TypeArchived(db.types, b, n),
                  sections := map[x := Row(n, p, 0, 0, true, Section(db.types[b].key, Doc(Arr([]))))]),
              map["s" := Gathering(n, w, blocks)], issued + {x})
  {
    var content := NormalizedContent(db.types[b].block.fields, Doc(Obj(map[]))).value;
    ThreeWait(db, issued, n, w, p, b, content, blocks);
    var row := Row(n, p, 0, 0, true, Section(db.types[b].key, content));
    var s := Gathering(n, w, blocks);
    var inserted := db.(types := TypeArchived(db.types, b, n), sections := map[x := row]);
    ArchivedThenInserted(
      db, issued, Inserting(n, p, db.types[b].key, content), Archivable(n, b), s, x, inserted);
    UpdateWaits(inserted, map["s" := s], issued + {x}, "u", n, x, Doc(Arr([])));
    var stored := map[x := Row(n, p, 0, 0, true, Section(db.types[b].key, Doc(Arr([]))))];
    UpdateLands(inserted, map["s" := s], issued + {x}, "u", Storing(n, x, Some(Doc(Arr([]))), None), stored);
  }

  /** Such a run exists, for any site, page and block type: with every query answered, a section refers to an archived
      type, and the snapshot that began before the archive has a page and this one block type, yet does not build. */
  lemma ArchiveBreaksSnapshot(site: Website, info: PageInfo, key: string, block: BlockType)
    requires ValidSlug(info.slug) && ValidSlug(Hyphened(key)) && GoodBlock(block)
    ensures exists s, req :: Reachable(s) && req in s.returned
              && InUse(s.db.sections, s.returned[req].tenant, key)
              && HasType(s.db.types, s.returned[req].tenant, key)
              && !ActiveType(s.db.types, s.returned[req].tenant, key)
              && s.returned[req].snap.pages != [] && s.returned[req].snap.blockTypes == map[key := block]
              && !Buildable(s.returned[req].snap)
  {
    var db := ShopOpens(site, info, key, block, "w", "p", "b", "n");
    var blocks := map[key := block];
    var section := Section(key, Doc(Arr([])));
    var db' := db.(types := TypeArchived(db.types, "b", "n"), sections := map["x" := Row("n", "p", 0, 0, true, section)]);
    ArrayIsStored(db, {"b", "p"}, "n", "w", "p", "b", "x", blocks);
    var t := UnbuildableSnapshot(db', {"b", "p"} + {"x"}, "s", "n", "w", "p", "x", blocks);
    assert IsType(t.db.types, "b", "n", key);
  }

  lemma UnbuildableSnapshot(
    db: Database, issued: set<Id>, s: Id, n: Id, w: Id, p: Id, x: Id, blocks: map<string, BlockType>)
    returns (t: State)
    requires BusyReachable(db, map[s := Gathering(n, w, blocks)], issued)
    requires w in db.websites && db.websites[w].tenant == n
    requires db.pages.Keys == {p} && db.pages[p].parent == w && db.pages[p].tenant == n && db.pages[p].visible
    requires db.sections.Keys == {x} && db.sections[x].parent == p && db.sections[x].tenant == n && db.sections[x].visible
    requires db.sections[x].data.blockType in blocks && Decode(db.sections[x].data.content).Err?
    ensures Reachable(t) && t.db == db && s in t.returned && t.returned[s].tenant == n
    ensures t.returned[s].snap.pages != [] && t.returned[s].snap.blockTypes == blocks
    ensures !Buildable(t.returned[s].snap)
  {
    assert IsVisibleListing(db.pages, w, n, [p]) && IsVisibleListing(db.sections, p, n, [x]);
    SnapshotPages(db, issued, s, n, w, blocks, [p]);
    var refs := PageRefs(db.pages, [p]);
    var section := db.sections[x].data;
    assert SectionData(db.sections, [x]) == [section];
    var page := refs[0].page.(sections := [section]);
    var r := Collecting(n, blocks, db.websites[w].website, refs, []);
    SnapshotSections(db, issued, s, r, refs[0], [x], page);
    SnapshotReturns(db, issued, s, r.(left := [], pages := [page]));
    t :| Reachable(t) && s in t.returned && t.db == db && t.returned[s].tenant == n
      && t.returned[s].snap.pages == [page] && t.returned[s].snap.blockTypes == blocks;
    assert section in page.sections;
    assert !PageBuildable(page, t.returned[s].snap);
  }
}
