/** What every run of the content handlers keeps. */
module ContentInvariant {
  import opened Results
  import opened Schema
  import opened Snapshots
  import opened Ordered
  import opened SiteProperties
  import opened Content
  import opened ContentProtocol

  // ---- The invariant ----

  function AllPages(pages: seq<Page>, left: seq<PageRef>): seq<Page> {
    pages + seq(|left|, i requires 0 <= i < |left| => left[i].page)
  }

  ghost predicate BlocksKnown(types: Types, tenant: Id, blocks: map<string, BlockType>) {
    forall key :: key in blocks ==>
      HasType(types, tenant, key) && ValidSchema(blocks[key].fields, blocks[key].layout)
  }

  /** A collected section of a known type holds an object, or its type has been archived meanwhile. */
  ghost predicate SectionFits(types: Types, tenant: Id, blocks: map<string, BlockType>, section: Section) {
    section.blockType in blocks && ActiveType(types, tenant, section.blockType) ==> IsObject(section.content)
  }

  ghost predicate PagesFit(types: Types, tenant: Id, blocks: map<string, BlockType>, pages: seq<Page>) {
    forall p, section :: p in pages && section in p.sections ==> SectionFits(types, tenant, blocks, section)
  }

  /** The section a pending update is about, if it is still there. */
  ghost predicate Targets(sections: Table<Section>, section: Id, tenant: Id) {
    section in sections && sections[section].tenant == tenant
  }

  ghost predicate RequestOk(types: Types, sections: Table<Section>, issued: set<Id>, r: Request) {
    match r
    case Creating(_, page, _, _) => page in issued
    case Inserting(tenant, page, key, content) => page in issued && HasType(types, tenant, key) && IsObject(content)
    case Typed(tenant, section, key, _, _) =>
      && HasType(types, tenant, key)
      && section in issued
      && (section in sections ==> sections[section].tenant == tenant && sections[section].data.blockType == key)
    case Storing(tenant, section, stored, _) =>
      stored.Some? && !IsObject(stored.value) ==>
        && section in issued
        && (section in sections ==> !ActiveType(types, sections[section].tenant, sections[section].data.blockType))
    case Archiving(tenant, id, key) => IsType(types, id, tenant, key)
    case Archivable(tenant, id) => id in types && types[id].tenant == tenant
    case Gathering(tenant, _, blocks) => BlocksKnown(types, tenant, blocks)
    case Paging(tenant, _, blocks, _) => BlocksKnown(types, tenant, blocks)
    case Collecting(tenant, blocks, _, left, pages) =>
      && BlocksKnown(types, tenant, blocks)
      && PagesFit(types, tenant, blocks, pages)
      && GoodSlugs(AllPages(pages, left))
    case _ => true
  }

  ghost predicate ReturnedOk(types: Types, r: Returned) {
    && BlocksKnown(types, r.tenant, r.snap.blockTypes)
    && PagesFit(types, r.tenant, r.snap.blockTypes, r.snap.pages)
    && GoodSlugs(r.snap.pages)
    && "" !in r.table
    && Embeds(r.snap.media, r.table, SiteImages(r.snap.website, r.snap.pages, r.snap.blockTypes))
  }

  ghost predicate TablesOk(db: Database, issued: set<Id>) {
    && DatabaseOk(db)
    && "" !in db.media
    && db.pages.Keys <= issued && db.sections.Keys <= issued && db.types.Keys <= issued
  }

  ghost predicate Sound(s: State) {
    && TablesOk(s.db, s.issued)
    && (forall req :: req in s.requests ==> RequestOk(s.db.types, s.db.sections, s.issued, s.requests[req]))
    && (forall req :: req in s.returned ==> ReturnedOk(s.db.types, s.returned[req]))
  }

  // ---- How tables change ----

  /** Issued sections never change tenant or type, and never come back once deleted. */
  ghost predicate SectionsAdvance(t: Table<Section>, u: Table<Section>, issued: set<Id>) {
    forall id :: id in issued && id in u ==>
      id in t && u[id].tenant == t[id].tenant && u[id].data.blockType == t[id].data.blockType
  }

  ghost predicate Advances(s: State, t: State) {
    && TablesOk(t.db, t.issued)
    && s.issued <= t.issued
    && TypesAdvance(s.db.types, t.db.types)
    && SectionsAdvance(s.db.sections, t.db.sections, s.issued)
  }

  lemma BlocksStayKnown(t: Types, u: Types, tenant: Id, blocks: map<string, BlockType>)
    requires TypesAdvance(t, u) && TypesOk(u) && BlocksKnown(t, tenant, blocks)
    ensures BlocksKnown(u, tenant, blocks)
  {
  }

  lemma PagesStayFit(t: Types, u: Types, tenant: Id, blocks: map<string, BlockType>, pages: seq<Page>)
    requires TypesAdvance(t, u) && TypesOk(u) && BlocksKnown(t, tenant, blocks) && PagesFit(t, tenant, blocks, pages)
    ensures PagesFit(u, tenant, blocks, pages)
  {
    forall p, section | p in pages && section in p.sections ensures SectionFits(u, tenant, blocks, section) {
      assert SectionFits(t, tenant, blocks, section);
      if section.blockType in blocks {
        TypeStays(t, u, tenant, section.blockType);
      }
    }
  }

  lemma StoringStaysOk(s: State, t: State, r: Request)
    requires TablesOk(s.db, s.issued) && Advances(s, t) && r.Storing?
    requires RequestOk(s.db.types, s.db.sections, s.issued, r)
    ensures RequestOk(t.db.types, t.db.sections, t.issued, r)
  {
  }

  lemma RequestStaysOk(s: State, t: State, r: Request)
    requires TablesOk(s.db, s.issued) && Advances(s, t) && RequestOk(s.db.types, s.db.sections, s.issued, r)
    ensures RequestOk(t.db.types, t.db.sections, t.issued, r)
  {
    match r
    case Inserting(tenant, _, key, _) => TypeStays(s.db.types, t.db.types, tenant, key);
    case Typed(tenant, _, key, _, _) => TypeStays(s.db.types, t.db.types, tenant, key);
    case Storing(_, _, _, _) => StoringStaysOk(s, t, r);
    case Gathering(tenant, _, blocks) => BlocksStayKnown(s.db.types, t.db.types, tenant, blocks);
    case Paging(tenant, _, blocks, _) => BlocksStayKnown(s.db.types, t.db.types, tenant, blocks);
    case Collecting(tenant, blocks, _, _, pages) =>
      BlocksStayKnown(s.db.types, t.db.types, tenant, blocks);
      PagesStayFit(s.db.types, t.db.types, tenant, blocks, pages);
    case _ =>
  }

  lemma ReturnedStaysOk(t: Types, u: Types, r: Returned)
    requires TypesAdvance(t, u) && TypesOk(u) && ReturnedOk(t, r)
    ensures ReturnedOk(u, r)
  {
    BlocksStayKnown(t, u, r.tenant, r.snap.blockTypes);
    PagesStayFit(t, u, r.tenant, r.snap.blockTypes, r.snap.pages);
  }

  /** Requests that were already under way stay sound when the tables advance. */
  lemma AdvancingKeepsSound(s: State, t: State)
    requires Sound(s) && Advances(s, t)
    requires forall req :: req in t.requests ==> req in s.requests && t.requests[req] == s.requests[req]
    requires forall req :: req in t.returned ==>
               ReturnedOk(t.db.types, t.returned[req]) || (req in s.returned && t.returned[req] == s.returned[req])
    ensures Sound(t)
  {
    forall req | req in t.requests ensures RequestOk(t.db.types, t.db.sections, t.issued, t.requests[req]) {
      RequestStaysOk(s, t, s.requests[req]);
    }
    forall req | req in t.returned ensures ReturnedOk(t.db.types, t.returned[req]) {
      if req in s.returned && t.returned[req] == s.returned[req] {
        ReturnedStaysOk(s.db.types, t.db.types, s.returned[req]);
      }
    }
  }

  // ---- One statement ----

  lemma PagesAdvance(s: State, pages: Table<PageInfo>, issued: set<Id>)
    requires TablesOk(s.db, s.issued) && PagesOk(pages) && pages.Keys <= issued && s.issued <= issued
    ensures Advances(s, s.(db := s.db.(pages := pages), issued := issued))
  {
  }

  lemma DeletePageAdvances(s: State, id: Id)
    requires TablesOk(s.db, s.issued)
    ensures Advances(s, s.(db := PageDeleted(s.db, id)))
  {
  }

  lemma PageStepAdvances(s: State, step: Step)
    requires TablesOk(s.db, s.issued) && DirectEnabled(s, step)
    requires step.CreatePage? || step.ReorderPages? || step.DeletePage?
    ensures Advances(s, DirectNext(s, step))
  {
    match step
    case CreatePage(newID, row) =>
      if !SlugTaken(s.db.pages, row.parent, row.data.slug, newID) {
        InsertPageKeepsPages(s.db.pages, newID, row);
        PagesAdvance(s, s.db.pages[newID := row], s.issued + {newID});
      }
    case ReorderPages(parent, tenant, ids, u) =>
      ReorderKeepsPages(s.db.pages, ids, parent, tenant, u);
      PagesAdvance(s, u, s.issued);
    case DeletePage(id, _) => DeletePageAdvances(s, id);
  }

  lemma UpdatePageAdvances(s: State, step: Step)
    requires TablesOk(s.db, s.issued) && DirectEnabled(s, step) && step.UpdatePage?
    ensures Advances(s, DirectNext(s, step))
  {
    var pages := s.db.pages;
    if step.id in pages && pages[step.id].tenant == step.tenant {
      var row := Patched(pages[step.id], step.patch);
      if !SlugTaken(pages, row.parent, row.data.slug, step.id) {
        PatchKeepsPages(pages, step.id, step.patch);
        PagesAdvance(s, pages[step.id := row], s.issued);
      }
    }
  }

  lemma SectionStepAdvances(s: State, step: Step)
    requires TablesOk(s.db, s.issued) && DirectEnabled(s, step)
    requires step.DeleteSection? || step.ReorderSections? || step.EditWebsites? || step.EditMedia?
    ensures Advances(s, DirectNext(s, step))
  {
    if step.ReorderSections? {
      ReorderKeepsSections(s.db.types, s.db.sections, step.ids, step.parent, step.tenant, step.sections);
      forall id | id in step.sections
        ensures step.sections[id].tenant == s.db.sections[id].tenant && step.sections[id].data == s.db.sections[id].data
      {
        assert Targeted(s.db.sections, step.ids, step.parent, step.tenant, id)
          || step.sections[id] == s.db.sections[id];
      }
    }
  }

  lemma TypeStepAdvances(s: State, step: Step)
    requires TablesOk(s.db, s.issued) && DirectEnabled(s, step)
    requires step.CreateType? || step.UpdateType?
    ensures Advances(s, DirectNext(s, step))
  {
    var types := s.db.types;
    FaultlessIffValid(step.block.fields, step.block.layout);
    if step.CreateType? && !HasType(types, step.tenant, step.key) {
      InsertTypeAdvances(types, step.newID, step.tenant, step.key, step.block);
      SectionsStayOk(types, TypeInserted(types, step.newID, step.tenant, step.key, step.block), s.db.sections);
    } else if step.UpdateType? && TypeUpdatable(types, step.id, step.tenant) {
      UpdateTypeAdvances(types, step.id, step.block);
      SectionsStayOk(types, TypeUpdated(types, step.id, step.block), s.db.sections);
    }
  }

  lemma DirectStepAdvances(s: State, step: Step)
    requires TablesOk(s.db, s.issued) && DirectEnabled(s, step)
    ensures Advances(s, DirectNext(s, step))
  {
    if step.CreatePage? || step.ReorderPages? || step.DeletePage? {
      PageStepAdvances(s, step);
    } else if step.UpdatePage? {
      UpdatePageAdvances(s, step);
    } else if step.CreateType? || step.UpdateType? {
      TypeStepAdvances(s, step);
    } else {
      SectionStepAdvances(s, step);
    }
  }

  // ---- The statements of requests ----

  lemma NewSectionAdvances(s: State, newID: Id, row: Row<Section>)
    requires TablesOk(s.db, s.issued) && newID !in s.issued
    requires HasType(s.db.types, row.tenant, row.data.blockType) && IsObject(row.data.content)
    ensures Advances(s, s.(db := s.db.(sections := s.db.sections[newID := row]), issued := s.issued + {newID}))
  {
  }

  lemma InsertAdvances(s: State, r: Request, step: Step)
    requires TablesOk(s.db, s.issued) && EndEnabled(s.db, s.issued, r, step) && step.InsertSection?
    requires RequestOk(s.db.types, s.db.sections, s.issued, r)
    ensures Advances(s, Ended(s, r, step))
  {
    if r.page in s.db.pages {
      NewSectionAdvances(s, step.newID,
        Row(r.tenant, r.page, step.order, step.created, true, Section(r.key, r.content)));
    }
  }

  lemma StoreAdvances(s: State, r: Request, step: Step)
    requires TablesOk(s.db, s.issued) && EndEnabled(s.db, s.issued, r, step) && step.StoreSection?
    requires RequestOk(s.db.types, s.db.sections, s.issued, r)
    ensures Advances(s, Ended(s, r, step))
  {
    if Targets(s.db.sections, r.section, r.tenant) {
      var row := s.db.sections[r.section];
      assert SectionOk(s.db.types, row.tenant, row.data);
      assert SectionOk(s.db.types, row.tenant, SectionStored(row, r.stored, r.visible).data);
    }
  }

  lemma ArchiveAdvances(s: State, r: Request, step: Step)
    requires TablesOk(s.db, s.issued) && EndEnabled(s.db, s.issued, r, step) && step.Archive?
    ensures Advances(s, Ended(s, r, step))
  {
    ArchiveTypeAdvances(s.db.types, r.id, r.tenant);
    SectionsStayOk(s.db.types, TypeArchived(s.db.types, r.id, r.tenant), s.db.sections);
  }

  lemma SnapshotIsOk(s: State, r: Request, step: Step)
    requires TablesOk(s.db, s.issued) && EndEnabled(s.db, s.issued, r, step) && step.ReadMedia?
    requires RequestOk(s.db.types, s.db.sections, s.issued, r)
    ensures Advances(s, Ended(s, r, step))
    ensures step.req in Ended(s, r, step).returned && ReturnedOk(s.db.types, Ended(s, r, step).returned[step.req])
  {
    assert AllPages(r.pages, r.left) == r.pages;
    var table := TenantMedia(s.db.media, r.tenant);
    var snap := SnapshotWith(r.site, r.pages, r.blocks, table, step.cast);
    forall id | id in SiteImages(r.site, r.pages, r.blocks) && id in table ensures id in snap.media {
      assert step.cast[id] == id && id in step.cast.Values;
    }
  }

  lemma EndAdvances(s: State, r: Request, step: Step)
    requires TablesOk(s.db, s.issued) && EndEnabled(s.db, s.issued, r, step)
    requires RequestOk(s.db.types, s.db.sections, s.issued, r)
    ensures Advances(s, Ended(s, r, step))
    ensures forall req :: req in Ended(s, r, step).returned ==>
              || ReturnedOk(Ended(s, r, step).db.types, Ended(s, r, step).returned[req])
              || (req in s.returned && Ended(s, r, step).returned[req] == s.returned[req])
  {
    match step {
      case InsertSection(_, _, _, _) => InsertAdvances(s, r, step);
      case StoreSection(_) => StoreAdvances(s, r, step);
      case Archive(_) => ArchiveAdvances(s, r, step);
      case ReadMedia(_, _) => SnapshotIsOk(s, r, step);
      case Drop(_) =>
    }
  }

  lemma EndKeepsSound(s: State, step: Step)
    requires Sound(s) && Enabled(s, step) && Ends(step)
    ensures Sound(Next(s, step)) && TypesAdvance(s.db.types, Next(s, step).db.types)
  {
    var r := s.requests[step.req];
    assert RequestOk(s.db.types, s.db.sections, s.issued, r);
    EndAdvances(s, r, step);
    DropAfter(s, Ended(s, r, step), step.req);
  }

  lemma DropAfter(s: State, t: State, req: Id)
    requires Sound(s) && Advances(s, t) && t.requests == s.requests
    requires forall q :: q in t.returned ==>
               ReturnedOk(t.db.types, t.returned[q]) || (q in s.returned && t.returned[q] == s.returned[q])
    ensures Sound(t.(requests := s.requests - {req}))
  {
    AdvancingKeepsSound(s, t.(requests := s.requests - {req}));
  }

  // ---- Statements that only read ----

  lemma PagesReadOk(s: State, r: Request, ids: seq<Id>)
    requires TablesOk(s.db, s.issued) && r.Paging? && RequestOk(s.db.types, s.db.sections, s.issued, r)
    requires IsVisibleListing(s.db.pages, r.website, r.tenant, ids)
    ensures GoodSlugs(AllPages([], PageRefs(s.db.pages, ids)))
  {
  }

  lemma SlugsDecide(a: seq<Page>, b: seq<Page>)
    requires |a| == |b| && forall i :: 0 <= i < |a| ==> a[i].slug == b[i].slug
    ensures GoodSlugs(a) ==> GoodSlugs(b)
  {
  }

  lemma ListedSectionsOk(types: Types, sections: Table<Section>, page: Id, tenant: Id, ids: seq<Id>)
    requires SectionsOk(types, sections) && IsVisibleListing(sections, page, tenant, ids)
    ensures forall section :: section in SectionData(sections, ids) ==> SectionOk(types, tenant, section)
  {
  }

  lemma SectionsReadOk(s: State, r: Request, ids: seq<Id>)
    requires TablesOk(s.db, s.issued) && r.Collecting? && r.left != []
    requires RequestOk(s.db.types, s.db.sections, s.issued, r)
    requires IsVisibleListing(s.db.sections, r.left[0].id, r.tenant, ids)
    ensures var page := r.left[0].page.(sections := SectionData(s.db.sections, ids));
            && PagesFit(s.db.types, r.tenant, r.blocks, r.pages + [page])
            && GoodSlugs(AllPages(r.pages + [page], r.left[1..]))
  {
    var data := SectionData(s.db.sections, ids);
    var page := r.left[0].page.(sections := data);
    SlugsDecide(AllPages(r.pages, r.left), AllPages(r.pages + [page], r.left[1..]));
    ListedSectionsOk(s.db.types, s.db.sections, r.left[0].id, r.tenant, ids);
    forall p, section | p in r.pages + [page] && section in p.sections
      ensures SectionFits(s.db.types, r.tenant, r.blocks, section)
    {
      assert p in r.pages || section in data;
    }
  }

  /** A schema read for an active type normalizes; without one, the type is archived unless the query failed. */
  lemma SchemaReadOk(s: State, step: Step)
    requires Sound(s) && Enabled(s, step) && step.ReadSchema? && !Misread(s, step)
    ensures var onward := SchemaRead(s.db.types, s.requests[step.req], step.found);
            onward.Some? ==> RequestOk(s.db.types, s.db.sections, s.issued, onward.value)
  {
  }

  lemma ReadOk(s: State, step: Step)
    requires Sound(s) && Enabled(s, step) && Reads(step) && !Misread(s, step)
    ensures var onward := Onward(s.db, s.requests[step.req], step);
            onward.Some? ==> RequestOk(s.db.types, s.db.sections, s.issued, onward.value)
  {
    var r := s.requests[step.req];
    assert RequestOk(s.db.types, s.db.sections, s.issued, r);
    match step {
      case ReadTypeKey(_) =>
        if Targets(s.db.sections, r.section, r.tenant) {
          assert SectionOk(s.db.types, r.tenant, s.db.sections[r.section].data);
        }
      case ReadSchema(_, _) => SchemaReadOk(s, step);
      case CountUses(_) =>
      case ReadWebsite(_) =>
      case ReadPages(_, ids) => PagesReadOk(s, r, ids);
      case ReadSections(_, ids) => SectionsReadOk(s, r, ids);
    }
  }

  lemma BeginOk(s: State, step: Step)
    requires Sound(s) && Enabled(s, step) && Begins(step)
    ensures RequestOk(s.db.types, s.db.sections, s.issued, Begun(s.db.types, step))
  {
  }

  // ---- Runs ----

  lemma RequestStepKeepsSound(s: State, req: Id, r: Option<Request>)
    requires Sound(s) && (r.Some? ==> RequestOk(s.db.types, s.db.sections, s.issued, r.value))
    ensures Sound(s.(requests := if r.Some? then s.requests[req := r.value] else s.requests - {req}))
  {
  }

  lemma StepKeepsSound(s: State, step: Step)
    requires Sound(s) && Enabled(s, step) && !Misread(s, step)
    ensures Sound(Next(s, step)) && TypesAdvance(s.db.types, Next(s, step).db.types)
  {
    if Begins(step) {
      BeginOk(s, step);
      RequestStepKeepsSound(s, step.req, Some(Begun(s.db.types, step)));
    } else if Reads(step) {
      ReadOk(s, step);
      RequestStepKeepsSound(s, step.req, Onward(s.db, s.requests[step.req], step));
    } else if Ends(step) {
      EndKeepsSound(s, step);
    } else {
      DirectStepAdvances(s, step);
      AdvancingKeepsSound(s, DirectNext(s, step));
    }
  }

  /** Every clean run keeps the store sound, and no type comes back from the archive, however requests interleave. */
  lemma {:induction false} RunKeepsSound(s: State, steps: seq<Step>, t: State)
    requires Sound(s) && CleanlyReaches(s, steps, t)
    ensures Sound(t) && TypesAdvance(s.db.types, t.db.types)
    decreases |steps|
  {
    if steps != [] {
      StepKeepsSound(s, steps[0]);
      RunKeepsSound(Next(s, steps[0]), steps[1..], t);
      TypesAdvanceOn(s.db.types, Next(s, steps[0]).db.types, t.db.types);
    }
  }

  lemma StoreStaysSound(steps: seq<Step>, s: State)
    requires CleanlyReaches(Initial(), steps, s)
    ensures Sound(s)
  {
    RunKeepsSound(Initial(), steps, s);
  }
}
