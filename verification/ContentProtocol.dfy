/**
  The content handlers as a state machine (internal/httpapi/handlers_pages.go, internal/httpapi/handlers_sectiontypes.go,
  internal/publish/snapshot.go). A step is one SQL statement, with the checks in Go around it; requests of any number
  of users are in flight at once, and may be dropped anywhere.
 */
module ContentProtocol {
  import opened Results
  import opened Json
  import opened Schema
  import opened Normalize
  import opened Snapshots
  import opened Slug
  import opened Ordered
  import opened SiteProperties
  import opened Content

  /** A page row of a snapshot being built, its sections not yet read. */
  datatype PageRef = PageRef(id: Id, page: Page)

  /** A request between two of its statements. */
  datatype Request =
    | Creating(tenant: Id, page: Id, key: string, content: Raw)
    | Inserting(tenant: Id, page: Id, key: string, content: Raw)
    | Updating(tenant: Id, section: Id, content: Raw, visible: Option<bool>)
    | Typed(tenant: Id, section: Id, key: string, content: Raw, visible: Option<bool>)
    | Storing(tenant: Id, section: Id, stored: Option<Raw>, visible: Option<bool>)
    | Archiving(tenant: Id, id: Id, key: string)
    | Archivable(tenant: Id, id: Id)
    | Gathering(tenant: Id, website: Id, blocks: map<string, BlockType>)
    | Paging(tenant: Id, website: Id, blocks: map<string, BlockType>, site: Website)
    | Collecting(tenant: Id, blocks: map<string, BlockType>, site: Website, left: seq<PageRef>, pages: seq<Page>)

  /** A snapshot that BuildSnapshot returned; `table` is history: the tenant's media at the time. */
  datatype Returned = Returned(tenant: Id, table: MediaTable, snap: Snapshot)

  /** `issued` is history: the generated ids, which do not repeat. */
  datatype State = State(
    db: Database, requests: map<Id, Request>, returned: map<Id, Returned>, issued: set<Id>)

  datatype Step =
    | CreatePage(newID: Id, row: Row<PageInfo>)
    | UpdatePage(id: Id, tenant: Id, patch: PagePatch)
    | DeletePage(id: Id, tenant: Id)
    | ReorderPages(parent: Id, tenant: Id, ids: seq<Id>, pages: Table<PageInfo>)
    | DeleteSection(id: Id, tenant: Id)
    | ReorderSections(parent: Id, tenant: Id, ids: seq<Id>, sections: Table<Section>)
    | CreateType(newID: Id, tenant: Id, key: string, block: BlockType)
    | UpdateType(id: Id, tenant: Id, block: BlockType)
    | EditWebsites(websites: map<Id, WebsiteRow>)
    | EditMedia(media: map<Id, MediaRow>)
    | BeginCreate(req: Id, tenant: Id, page: Id, key: string, content: Raw)
    | BeginUpdate(req: Id, tenant: Id, section: Id, content: Raw, visible: Option<bool>)
    | BeginArchive(req: Id, tenant: Id, id: Id)
    | BeginSnapshot(req: Id, tenant: Id, website: Id, blocks: map<string, BlockType>)
    | ReadTypeKey(req: Id)
    | ReadSchema(req: Id, found: Option<Id>)
    | InsertSection(req: Id, newID: Id, order: int, created: int)
    | StoreSection(req: Id)
    | CountUses(req: Id)
    | Archive(req: Id)
    | ReadWebsite(req: Id)
    | ReadPages(req: Id, ids: seq<Id>)
    | ReadSections(req: Id, ids: seq<Id>)
    | ReadMedia(req: Id, cast: map<string, Id>)
    | Drop(req: Id)

  // ---- What the queries return ----

  /** The active schemas of a tenant by key. */
  ghost predicate IsActiveBlocks(types: Types, tenant: Id, blocks: map<string, BlockType>) {
    && (forall key :: key in blocks <==> ActiveType(types, tenant, key))
    && (forall key :: key in blocks ==>
          exists id :: IsType(types, id, tenant, key) && types[id].active && types[id].block == blocks[key])
  }

  predicate InUse(sections: Table<Section>, tenant: Id, key: string) {
    exists id :: id in sections && sections[id].tenant == tenant && sections[id].data.blockType == key
  }

  function PageRefs(pages: Table<PageInfo>, ids: seq<Id>): (refs: seq<PageRef>)
    requires forall id :: id in ids ==> id in pages
    ensures |refs| == |ids|
  {
    seq(|ids|, i requires 0 <= i < |ids| =>
      var p := pages[ids[i]].data;
      PageRef(ids[i], Page(p.title, p.slug, p.seoTitle, p.seoDescription, [])))
  }

  function SectionData(sections: Table<Section>, ids: seq<Id>): (r: seq<Section>)
    requires forall id :: id in ids ==> id in sections
    ensures |r| == |ids| && forall i :: 0 <= i < |ids| ==> r[i] == sections[ids[i]].data
  {
    seq(|ids|, i requires 0 <= i < |ids| => sections[ids[i]].data)
  }

  function TenantMedia(media: map<Id, MediaRow>, tenant: Id): MediaTable {
    map id | id in media && media[id].tenant == tenant :: media[id].media
  }

  /** The uuid values of the collected ids: a cast that succeeded, which leaves the ids of rows alone. */
  predicate IsCast(cast: map<string, Id>, images: set<string>, media: map<Id, MediaRow>) {
    cast.Keys == images && forall s :: s in images && s in media ==> cast[s] == s
  }

  function SnapshotWith(
    site: Website, pages: seq<Page>, blocks: map<string, BlockType>, table: MediaTable, cast: map<string, Id>): Snapshot
  {
    Snapshot(site, pages, map id | id in table && id in cast.Values :: table[id], blocks)
  }

  // ---- Enabled steps ----

  function Hyphened(key: string): string {
    if key == "" then "" else [if key[0] == '_' then '-' else key[0]] + Hyphened(key[1..])
  }

  /** Every underscore becomes a hyphen, and nothing else changes. */
  lemma {:induction false} HyphenedAt(key: string, i: nat)
    requires i < |key|
    ensures |Hyphened(key)| == |key|
    ensures Hyphened(key)[i] == if key[i] == '_' then '-' else key[i]
  {
    if |key| > 1 {
      HyphenedAt(key[1..], if i == 0 then 0 else i - 1);
    }
  }

  predicate GoodBlock(block: BlockType) {
    block.title != "" && SchemaFault(block.fields, block.layout).None?
  }

  ghost predicate DirectEnabled(s: State, step: Step) {
    match step
    case CreatePage(newID, row) =>
      && newID !in s.issued
      && row.parent in s.db.websites && s.db.websites[row.parent].tenant == row.tenant
      && ValidSlug(row.data.slug) && row.visible
      && IsNextOrder(s.db.pages, row.parent, row.order)
    case UpdatePage(_, _, patch) => patch.slug.Some? ==> ValidSlug(patch.slug.value)
    case DeletePage(_, _) => true
    case ReorderPages(parent, tenant, ids, u) => ids != [] && Reordered(s.db.pages, ids, parent, tenant, u)
    case DeleteSection(_, _) => true
    case ReorderSections(parent, tenant, ids, u) => ids != [] && Reordered(s.db.sections, ids, parent, tenant, u)
    case CreateType(newID, _, key, block) => newID !in s.issued && ValidSlug(Hyphened(key)) && GoodBlock(block)
    case UpdateType(_, _, block) => GoodBlock(block)
    case EditWebsites(_) => true
    case EditMedia(media) => "" !in media
    case _ => false
  }

  ghost predicate ReadEnabled(db: Database, r: Request, step: Step) {
    match step
    case ReadTypeKey(_) => r.Updating?
    case ReadSchema(_, found) =>
      && (r.Creating? || r.Typed?)
      && (found.Some? ==> IsType(db.types, found.value, r.tenant, r.key) && db.types[found.value].active)
    case CountUses(_) => r.Archiving?
    case ReadWebsite(_) => r.Gathering? && r.website in db.websites && db.websites[r.website].tenant == r.tenant
    case ReadPages(_, ids) => r.Paging? && IsVisibleListing(db.pages, r.website, r.tenant, ids)
    case ReadSections(_, ids) =>
      r.Collecting? && r.left != [] && IsVisibleListing(db.sections, r.left[0].id, r.tenant, ids)
    case _ => false
  }

  ghost predicate EndEnabled(db: Database, issued: set<Id>, r: Request, step: Step) {
    match step
    case InsertSection(_, newID, order, _) =>
      r.Inserting? && newID !in issued && IsNextOrder(db.sections, r.page, order)
    case StoreSection(_) => r.Storing?
    case Archive(_) => r.Archivable?
    case ReadMedia(_, cast) =>
      r.Collecting? && r.left == [] && IsCast(cast, SiteImages(r.site, r.pages, r.blocks), db.media)
    case Drop(_) => true
    case _ => false
  }

  ghost predicate BeginEnabled(s: State, step: Step) {
    match step
    case BeginCreate(_, tenant, page, _, content) =>
      page in s.db.pages && s.db.pages[page].tenant == tenant && !content.Malformed?
    case BeginUpdate(_, _, _, content, _) => !content.Malformed?
    case BeginArchive(_, tenant, id) => TypeUpdatable(s.db.types, id, tenant)
    case BeginSnapshot(_, tenant, website, blocks) => IsActiveBlocks(s.db.types, tenant, blocks)
    case _ => false
  }

  predicate Begins(step: Step) {
    step.BeginCreate? || step.BeginUpdate? || step.BeginArchive? || step.BeginSnapshot?
  }

  predicate Reads(step: Step) {
    step.ReadTypeKey? || step.ReadSchema? || step.CountUses? || step.ReadWebsite? || step.ReadPages?
    || step.ReadSections?
  }

  predicate Ends(step: Step) {
    step.InsertSection? || step.StoreSection? || step.Archive? || step.ReadMedia? || step.Drop?
  }

  ghost predicate Enabled(s: State, step: Step) {
    if Begins(step) then step.req !in s.requests && step.req !in s.returned && BeginEnabled(s, step)
    else if Reads(step) then step.req in s.requests && ReadEnabled(s.db, s.requests[step.req], step)
    else if Ends(step) then step.req in s.requests && EndEnabled(s.db, s.issued, s.requests[step.req], step)
    else DirectEnabled(s, step)
  }

  // ---- Steps that are one statement ----

  ghost function DirectNext(s: State, step: Step): (t: State)
    requires DirectEnabled(s, step)
    ensures t.requests == s.requests && t.returned == s.returned
  {
    match step
    case CreatePage(newID, row) =>
      if SlugTaken(s.db.pages, row.parent, row.data.slug, newID) then s
      else s.(db := s.db.(pages := s.db.pages[newID := row]), issued := s.issued + {newID})
    case UpdatePage(id, tenant, patch) =>
      if id !in s.db.pages || s.db.pages[id].tenant != tenant then s
      else
        var row := Patched(s.db.pages[id], patch);
        if SlugTaken(s.db.pages, row.parent, row.data.slug, id) then s
        else s.(db := s.db.(pages := s.db.pages[id := row]))
    case DeletePage(id, tenant) =>
      if id !in s.db.pages || s.db.pages[id].tenant != tenant then s else s.(db := PageDeleted(s.db, id))
    case ReorderPages(_, _, _, u) => s.(db := s.db.(pages := u))
    case DeleteSection(id, tenant) =>
      if id !in s.db.sections || s.db.sections[id].tenant != tenant then s
      else s.(db := s.db.(sections := s.db.sections - {id}))
    case ReorderSections(_, _, _, u) => s.(db := s.db.(sections := u))
    case CreateType(newID, tenant, key, block) =>
      if HasType(s.db.types, tenant, key) then s
      else
        s.(db := s.db.(types := TypeInserted(s.db.types, newID, tenant, key, block)), issued := s.issued + {newID})
    case UpdateType(id, tenant, block) =>
      if !TypeUpdatable(s.db.types, id, tenant) then s
      else s.(db := s.db.(types := TypeUpdated(s.db.types, id, block)))
    case EditWebsites(websites) => s.(db := s.db.(websites := websites))
    case EditMedia(media) => s.(db := s.db.(media := media))
  }

  // ---- Steps of requests ----

  function Begun(types: Types, step: Step): Request
    requires Begins(step) && (step.BeginArchive? ==> step.id in types)
  {
    match step
    case BeginCreate(_, tenant, page, key, content) => Creating(tenant, page, key, content)
    case BeginUpdate(_, tenant, section, content, visible) =>
      if content.Empty? then Storing(tenant, section, None, visible) else Updating(tenant, section, content, visible)
    case BeginArchive(_, tenant, id) => Archiving(tenant, id, types[id].key)
    case BeginSnapshot(_, tenant, website, blocks) => Gathering(tenant, website, blocks)
  }

  /** With a schema, content is normalized; without one, an update stores its content as it is. */
  function SchemaRead(types: Types, r: Request, found: Option<Id>): Option<Request>
    requires r.Creating? || r.Typed?
    requires found.Some? ==> found.value in types
  {
    var content := if found.Some? then NormalizedContent(types[found.value].block.fields, r.content) else Ok(r.content);
    if content.Err? || (found.None? && r.Creating?) then None
    else if r.Typed? then Some(Storing(r.tenant, r.section, Some(content.value), r.visible))
    else Some(Inserting(r.tenant, r.page, r.key, content.value))
  }

  /** Where a statement that only reads leads its request; None answers it with an error. */
  ghost function Onward(db: Database, r: Request, step: Step): Option<Request>
    requires Reads(step) && ReadEnabled(db, r, step)
  {
    match step
    case ReadTypeKey(_) =>
      if r.section in db.sections && db.sections[r.section].tenant == r.tenant
      then Some(Typed(r.tenant, r.section, db.sections[r.section].data.blockType, r.content, r.visible))
      else None
    case ReadSchema(_, found) => SchemaRead(db.types, r, found)
    case CountUses(_) => if InUse(db.sections, r.tenant, r.key) then None else Some(Archivable(r.tenant, r.id))
    case ReadWebsite(_) => Some(Paging(r.tenant, r.website, r.blocks, db.websites[r.website].website))
    case ReadPages(_, ids) => Some(Collecting(r.tenant, r.blocks, r.site, PageRefs(db.pages, ids), []))
    case ReadSections(_, ids) =>
      Some(r.(left := r.left[1..], pages := r.pages + [r.left[0].page.(sections := SectionData(db.sections, ids))]))
  }

  /** The statement that ends a request, and what it does to the tables and the results. */
  ghost function Ended(s: State, r: Request, step: Step): (t: State)
    requires Ends(step) && EndEnabled(s.db, s.issued, r, step)
    ensures t.requests == s.requests
  {
    match step
    case InsertSection(_, newID, order, created) =>
      if r.page !in s.db.pages then s
      else
        var row := Row(r.tenant, r.page, order, created, true, Section(r.key, r.content));
        s.(db := s.db.(sections := s.db.sections[newID := row]), issued := s.issued + {newID})
    case StoreSection(_) =>
      if r.section !in s.db.sections || s.db.sections[r.section].tenant != r.tenant then s
      else
        var row := SectionStored(s.db.sections[r.section], r.stored, r.visible);
        s.(db := s.db.(sections := s.db.sections[r.section := row]))
    case Archive(_) => s.(db := s.db.(types := TypeArchived(s.db.types, r.id, r.tenant)))
    case ReadMedia(req, cast) =>
      var table := TenantMedia(s.db.media, r.tenant);
      s.(returned := s.returned[req := Returned(r.tenant, table, SnapshotWith(r.site, r.pages, r.blocks, table, cast))])
    case Drop(_) => s
  }

  ghost function Next(s: State, step: Step): State
    requires Enabled(s, step)
  {
    if Begins(step) then s.(requests := s.requests[step.req := Begun(s.db.types, step)])
    else if Reads(step) then
      var onward := Onward(s.db, s.requests[step.req], step);
      s.(requests := if onward.Some? then s.requests[step.req := onward.value] else s.requests - {step.req})
    else if Ends(step) then
      Ended(s, s.requests[step.req], step).(requests := s.requests - {step.req})
    else DirectNext(s, step)
  }

  function Initial(): State {
    State(Database(map[], map[], map[], map[], map[]), map[], map[], {})
  }

  // ---- Runs ----

  /** A schema query that finds nothing although the type is active: it failed, and the handler does not ask why. */
  ghost predicate Misread(s: State, step: Step) {
    && step.ReadSchema? && step.found.None?
    && step.req in s.requests && s.requests[step.req].Typed?
    && ActiveType(s.db.types, s.requests[step.req].tenant, s.requests[step.req].key)
  }

  ghost predicate Reaches(s: State, steps: seq<Step>, t: State)
    decreases |steps|
  {
    if steps == [] then s == t
    else Enabled(s, steps[0]) && Reaches(Next(s, steps[0]), steps[1..], t)
  }

  /** Runs in which no schema query of an update fails. */
  ghost predicate CleanlyReaches(s: State, steps: seq<Step>, t: State)
    decreases |steps|
  {
    if steps == [] then s == t
    else
      && Enabled(s, steps[0]) && !Misread(s, steps[0])
      && CleanlyReaches(Next(s, steps[0]), steps[1..], t)
  }
}
