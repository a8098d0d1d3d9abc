/** The tables of the content store and the statements run on them (internal/db/migrations, internal/httpapi). */
module Content {
  import opened Results
  import opened Json
  import opened Schema
  import opened Normalize
  import opened Snapshots
  import opened Slug
  import opened Ordered

  datatype PageInfo = PageInfo(title: string, slug: string, seoTitle: string, seoDescription: string)

  datatype TypeRow = TypeRow(tenant: Id, key: string, block: BlockType, active: bool)

  datatype WebsiteRow = WebsiteRow(tenant: Id, website: Website)

  datatype MediaRow = MediaRow(tenant: Id, media: Media)

  type Types = map<Id, TypeRow>

  datatype Database = Database(
    websites: map<Id, WebsiteRow>,
    pages: Table<PageInfo>,
    sections: Table<Section>,
    types: Types,
    media: map<Id, MediaRow>)

  // ---- Block types by key ----

  predicate IsType(types: Types, id: Id, tenant: Id, key: string) {
    id in types && types[id].tenant == tenant && types[id].key == key
  }

  predicate HasType(types: Types, tenant: Id, key: string) {
    exists id :: id in types && IsType(types, id, tenant, key)
  }

  predicate ActiveType(types: Types, tenant: Id, key: string) {
    exists id :: id in types && IsType(types, id, tenant, key) && types[id].active
  }

  // ---- The invariant of the store ----

  predicate IsObject(content: Raw) { content.Doc? && content.value.Obj? }

  ghost predicate TypesOk(types: Types) {
    && (forall a, b :: a in types && IsType(types, b, types[a].tenant, types[a].key) ==> a == b)
    && (forall id :: id in types ==> ValidSchema(types[id].block.fields, types[id].block.layout))
  }

  /** UNIQUE (website_id, slug), and the slug check of the handlers. */
  ghost predicate PagesOk(pages: Table<PageInfo>) {
    && (forall id :: id in pages ==> ValidSlug(pages[id].data.slug))
    && (forall a, b ::
          a in pages && b in pages && pages[a].parent == pages[b].parent && pages[a].data.slug == pages[b].data.slug
          ==> a == b)
  }

  /** The type has a row of the same tenant, and while it is active the content is an object. */
  ghost predicate SectionOk(types: Types, tenant: Id, section: Section) {
    && HasType(types, tenant, section.blockType)
    && (ActiveType(types, tenant, section.blockType) ==> IsObject(section.content))
  }

  ghost predicate SectionsOk(types: Types, sections: Table<Section>) {
    forall id :: id in sections ==> SectionOk(types, sections[id].tenant, sections[id].data)
  }

  ghost predicate DatabaseOk(db: Database) {
    TypesOk(db.types) && PagesOk(db.pages) && SectionsOk(db.types, db.sections)
  }

  // ---- How block types change: never deleted, never renamed, never active again ----

  ghost predicate TypesAdvance(t: Types, u: Types) {
    forall id :: id in t ==>
      && id in u && u[id].tenant == t[id].tenant && u[id].key == t[id].key
      && (u[id].active ==> t[id].active)
  }

  lemma TypesAdvanceOn(t: Types, u: Types, v: Types)
    requires TypesAdvance(t, u) && TypesAdvance(u, v)
    ensures TypesAdvance(t, v)
  {
  }

  /** A type that was archived, or whose archived row exists, stays as it is whatever else is created. */
  lemma TypeStays(t: Types, u: Types, tenant: Id, key: string)
    requires TypesAdvance(t, u) && TypesOk(u) && HasType(t, tenant, key)
    ensures HasType(u, tenant, key)
    ensures ActiveType(u, tenant, key) ==> ActiveType(t, tenant, key)
  {
  }

  lemma SectionsStayOk(t: Types, u: Types, sections: Table<Section>)
    requires TypesAdvance(t, u) && TypesOk(u) && SectionsOk(t, sections)
    ensures SectionsOk(u, sections)
  {
  }

  // ---- Statements on block types ----

  function TypeInserted(types: Types, newID: Id, tenant: Id, key: string, block: BlockType): Types {
    types[newID := TypeRow(tenant, key, block, true)]
  }

  /** UPDATE section_types ... WHERE id AND tenant_id AND status = 'active'. */
  predicate TypeUpdatable(types: Types, id: Id, tenant: Id) {
    id in types && types[id].tenant == tenant && types[id].active
  }

  function TypeUpdated(types: Types, id: Id, block: BlockType): Types
    requires id in types
  {
    types[id := types[id].(block := block)]
  }

  /** UPDATE section_types SET status = 'archived' WHERE id AND tenant_id. */
  function TypeArchived(types: Types, id: Id, tenant: Id): Types {
    if id in types && types[id].tenant == tenant then types[id := types[id].(active := false)] else types
  }

  lemma InsertTypeAdvances(types: Types, newID: Id, tenant: Id, key: string, block: BlockType)
    requires TypesOk(types) && newID !in types && !HasType(types, tenant, key)
    requires ValidSchema(block.fields, block.layout)
    ensures TypesOk(TypeInserted(types, newID, tenant, key, block))
    ensures TypesAdvance(types, TypeInserted(types, newID, tenant, key, block))
  {
    var u := TypeInserted(types, newID, tenant, key, block);
    forall a, b | a in u && IsType(u, b, u[a].tenant, u[a].key) ensures a == b {
      assert a != newID && b != newID ==> IsType(types, b, types[a].tenant, types[a].key);
      assert a in types ==> IsType(types, a, types[a].tenant, types[a].key);
      assert b in types ==> IsType(types, b, types[b].tenant, types[b].key);
    }
  }

  lemma UpdateTypeAdvances(types: Types, id: Id, block: BlockType)
    requires TypesOk(types) && id in types && ValidSchema(block.fields, block.layout)
    ensures TypesOk(TypeUpdated(types, id, block)) && TypesAdvance(types, TypeUpdated(types, id, block))
  {
    var u := TypeUpdated(types, id, block);
    forall a, b | a in u && IsType(u, b, u[a].tenant, u[a].key) ensures a == b {
      assert IsType(types, b, types[a].tenant, types[a].key);
    }
  }

  lemma ArchiveTypeAdvances(types: Types, id: Id, tenant: Id)
    requires TypesOk(types)
    ensures TypesOk(TypeArchived(types, id, tenant)) && TypesAdvance(types, TypeArchived(types, id, tenant))
  {
    var u := TypeArchived(types, id, tenant);
    forall a, b | a in u && IsType(u, b, u[a].tenant, u[a].key) ensures a == b {
      assert IsType(types, b, types[a].tenant, types[a].key);
    }
  }

  // ---- Statements on pages ----

  predicate SlugTaken(pages: Table<PageInfo>, website: Id, slug: string, except: Id) {
    exists id :: id in pages && id != except && pages[id].parent == website && pages[id].data.slug == slug
  }

  lemma InsertPageKeepsPages(pages: Table<PageInfo>, newID: Id, row: Row<PageInfo>)
    requires PagesOk(pages) && newID !in pages
    requires ValidSlug(row.data.slug) && !SlugTaken(pages, row.parent, row.data.slug, newID)
    ensures PagesOk(pages[newID := row])
  {
  }

  datatype PagePatch = PagePatch(
    title: Option<string>, slug: Option<string>, visible: Option<bool>,
    seoTitle: Option<string>, seoDescription: Option<string>)

  function Coalesce<T>(value: Option<T>, default: T): T {
    if value.Some? then value.value else default
  }

  function Patched(row: Row<PageInfo>, patch: PagePatch): Row<PageInfo> {
    row.(visible := Coalesce(patch.visible, row.visible),
         data := PageInfo(
           Coalesce(patch.title, row.data.title),
           Coalesce(patch.slug, row.data.slug),
           Coalesce(patch.seoTitle, row.data.seoTitle),
           Coalesce(patch.seoDescription, row.data.seoDescription)))
  }

  /** A field of a request that was sent replaces the stored value; one that was not leaves it. */
  predicate Overwrites<T(==)>(sent: Option<T>, before: T, after: T) {
    match sent
    case Some(value) => after == value
    case None => after == before
  }

  /** What an update makes of a page: its place and its age stay. */
  predicate PageChanged(before: Row<PageInfo>, patch: PagePatch, after: Row<PageInfo>) {
    && after.tenant == before.tenant && after.parent == before.parent
    && after.order == before.order && after.created == before.created
    && Overwrites(patch.visible, before.visible, after.visible)
    && Overwrites(patch.title, before.data.title, after.data.title)
    && Overwrites(patch.slug, before.data.slug, after.data.slug)
    && Overwrites(patch.seoTitle, before.data.seoTitle, after.data.seoTitle)
    && Overwrites(patch.seoDescription, before.data.seoDescription, after.data.seoDescription)
  }

  lemma PatchKeepsPages(pages: Table<PageInfo>, id: Id, patch: PagePatch)
    requires PagesOk(pages) && id in pages
    requires patch.slug.Some? ==> ValidSlug(patch.slug.value)
    requires !SlugTaken(pages, pages[id].parent, Patched(pages[id], patch).data.slug, id)
    ensures PagesOk(pages[id := Patched(pages[id], patch)])
  {
  }

  lemma ReorderKeepsPages(
    pages: Table<PageInfo>, ids: seq<Id>, website: Id, tenant: Id, u: Table<PageInfo>)
    requires PagesOk(pages) && Reordered(pages, ids, website, tenant, u)
    ensures PagesOk(u)
  {
  }

  /** DELETE FROM pages, with ON DELETE CASCADE to its sections. */
  function PageDeleted(db: Database, id: Id): Database {
    db.(pages := db.pages - {id},
        sections := map s | s in db.sections && db.sections[s].parent != id :: db.sections[s])
  }

  /** Deleting a page erases it from its website's listing and leaves the listings of all other pages' sections. */
  lemma DeletePageErases(db: Database, id: Id, website: Id, tenant: Id, ids: seq<Id>)
    requires IsListing(db.pages, website, tenant, ids)
    ensures IsListing(PageDeleted(db, id).pages, website, tenant, Without(ids, id))
    ensures forall page, l :: page != id ==>
              (IsListing(db.sections, page, tenant, l) <==> IsListing(PageDeleted(db, id).sections, page, tenant, l))
    ensures forall l :: IsListing(PageDeleted(db, id).sections, id, tenant, l) <==> l == []
  {
    DeleteErases(db.pages, id, website, tenant, ids);
    var left := PageDeleted(db, id).sections;
    forall page, l | page != id
      ensures IsListing(db.sections, page, tenant, l) <==> IsListing(left, page, tenant, l)
    {
      assert SameRows(db.sections, left, page, tenant);
      SameRowsSameListings(db.sections, left, page, tenant, l);
    }
    forall l | IsListing(left, id, tenant, l) ensures l == [] {
      FirstBelongs(left, id, tenant, l);
    }
  }

  // ---- Statements on sections ----

  lemma InsertSectionKeepsSections(types: Types, sections: Table<Section>, newID: Id, row: Row<Section>)
    requires SectionsOk(types, sections) && HasType(types, row.tenant, row.data.blockType) && IsObject(row.data.content)
    ensures SectionsOk(types, sections[newID := row])
  {
  }

  /** UPDATE sections SET content_json = COALESCE, status = COALESCE. */
  function SectionStored(row: Row<Section>, content: Option<Raw>, visible: Option<bool>): Row<Section> {
    row.(visible := Coalesce(visible, row.visible),
         data := row.data.(content := Coalesce(content, row.data.content)))
  }

  /** What an update makes of a section: its type, its place and its age stay. */
  predicate SectionChanged(before: Row<Section>, content: Option<Raw>, visible: Option<bool>, after: Row<Section>) {
    && after.tenant == before.tenant && after.parent == before.parent
    && after.order == before.order && after.created == before.created
    && after.data.blockType == before.data.blockType
    && Overwrites(visible, before.visible, after.visible)
    && Overwrites(content, before.data.content, after.data.content)
  }

  lemma ReorderKeepsSections(
    types: Types, sections: Table<Section>, ids: seq<Id>, page: Id, tenant: Id, u: Table<Section>)
    requires SectionsOk(types, sections) && Reordered(sections, ids, page, tenant, u)
    ensures SectionsOk(types, u)
  {
  }

  lemma NormalizedIsObject(fields: seq<FieldSpec>, content: Raw)
    ensures NormalizedContent(fields, content).Ok? ==> IsObject(NormalizedContent(fields, content).value)
    ensures NormalizedContent(fields, content).Ok? <==> Decode(content).Ok?
  {
  }
}
