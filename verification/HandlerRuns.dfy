/** Statements of one handler with nothing in between, as runs of the state machine of ContentProtocol. */
module HandlerRuns {
  import opened Results
  import opened Json
  import opened Normalize
  import opened Snapshots
  import opened Slug
  import opened Ordered
  import opened Content
  import opened ContentProtocol

  function Idle(db: Database, issued: set<Id>): State { State(db, map[], map[], issued) }

  ghost predicate Leads(s: State, t: State) { exists steps :: Reaches(s, steps, t) }

  lemma {:induction false} ReachesOn(s: State, steps: seq<Step>, mid: State, step: Step)
    requires Reaches(s, steps, mid) && Enabled(mid, step)
    ensures Reaches(s, steps + [step], Next(mid, step))
    decreases |steps|
  {
    if steps == [] {
      assert Reaches(Next(mid, step), [], Next(mid, step));
      assert (steps + [step])[1..] == [];
    } else {
      ReachesOn(Next(s, steps[0]), steps[1..], mid, step);
      assert (steps + [step])[1..] == steps[1..] + [step];
    }
  }

  /** One more step; the states are compared component by component. */
  lemma LeadsOn(s: State, mid: State, step: Step, t: State)
    requires Leads(s, mid) && Enabled(mid, step)
    requires Next(mid, step).db == t.db && Next(mid, step).requests == t.requests
    requires Next(mid, step).returned == t.returned && Next(mid, step).issued == t.issued
    ensures Leads(s, t)
  {
    var steps :| Reaches(s, steps, mid);
    ReachesOn(s, steps, mid, step);
  }

  lemma LeadsNowhere(s: State)
    ensures Leads(s, s)
  {
    assert Reaches(s, [], s);
  }

  function Alone(s: State, req: Id, r: Request): State { s.(requests := map[req := r]) }

  /** Whatever ids were issued before, the machine gets from one database to the other with just the new ids. */
  ghost predicate Runs(db: Database, db': Database, newIDs: set<Id>) {
    forall issued: set<Id> :: issued !! newIDs ==> Leads(Idle(db, issued), Idle(db', issued + newIDs))
  }

  lemma NothingRuns(db: Database)
    ensures Runs(db, db, {})
  {
    forall issued: set<Id> ensures Leads(Idle(db, issued), Idle(db, issued + {})) {
      LeadsNowhere(Idle(db, issued));
      assert issued + {} == issued;
    }
  }

  /** A handler of one statement. */
  lemma StatementRuns(db: Database, db': Database, newIDs: set<Id>, step: Step)
    requires !Begins(step) && !Reads(step) && !Ends(step)
    requires forall issued: set<Id> :: issued !! newIDs ==> DirectEnabled(Idle(db, issued), step)
    requires forall issued: set<Id> :: issued !! newIDs ==>
               var t := DirectNext(Idle(db, issued), step); t.db == db' && t.issued == issued + newIDs
    ensures Runs(db, db', newIDs)
  {
    forall issued: set<Id> | issued !! newIDs ensures Leads(Idle(db, issued), Idle(db', issued + newIDs)) {
      var s := Idle(db, issued);
      LeadsNowhere(s);
      LeadsOn(s, s, step, Idle(db', issued + newIDs));
    }
  }

  /** One more insert of a block type after other statements. */
  lemma SeedRuns(db: Database, mid: Database, newIDs: set<Id>, newID: Id, tenant: Id, key: string, block: BlockType)
    requires Runs(db, mid, newIDs) && newID !in newIDs
    requires !HasType(mid.types, tenant, key) && ValidSlug(Hyphened(key)) && GoodBlock(block)
    ensures Runs(db, mid.(types := TypeInserted(mid.types, newID, tenant, key, block)), newIDs + {newID})
  {
    var after := mid.(types := TypeInserted(mid.types, newID, tenant, key, block));
    forall issued: set<Id> | issued !! newIDs + {newID}
      ensures Leads(Idle(db, issued), Idle(after, issued + (newIDs + {newID})))
    {
      assert issued !! newIDs && issued + newIDs + {newID} == issued + (newIDs + {newID});
      LeadsOn(Idle(db, issued), Idle(mid, issued + newIDs), CreateType(newID, tenant, key, block),
        Idle(after, issued + (newIDs + {newID})));
    }
  }

  lemma CreatePageRuns(db: Database, newID: Id, row: Row<PageInfo>)
    requires row.parent in db.websites && db.websites[row.parent].tenant == row.tenant
    requires ValidSlug(row.data.slug) && row.visible && IsNextOrder(db.pages, row.parent, row.order)
    requires !SlugTaken(db.pages, row.parent, row.data.slug, newID)
    ensures Runs(db, db.(pages := db.pages[newID := row]), {newID})
  {
    StatementRuns(db, db.(pages := db.pages[newID := row]), {newID}, CreatePage(newID, row));
  }

  lemma ReorderPagesRuns(db: Database, ids: seq<Id>, website: Id, tenant: Id, pages: Table<PageInfo>)
    requires ids != [] && Reordered(db.pages, ids, website, tenant, pages)
    ensures Runs(db, db.(pages := pages), {})
  {
    StatementRuns(db, db.(pages := pages), {}, ReorderPages(website, tenant, ids, pages));
  }

  lemma ReorderSectionsRuns(db: Database, ids: seq<Id>, page: Id, tenant: Id, sections: Table<Section>)
    requires ids != [] && Reordered(db.sections, ids, page, tenant, sections)
    ensures Runs(db, db.(sections := sections), {})
  {
    StatementRuns(db, db.(sections := sections), {}, ReorderSections(page, tenant, ids, sections));
  }

  lemma UpdateTypeRuns(db: Database, id: Id, tenant: Id, block: BlockType)
    requires TypeUpdatable(db.types, id, tenant) && GoodBlock(block)
    ensures Runs(db, db.(types := TypeUpdated(db.types, id, block)), {})
  {
    StatementRuns(db, db.(types := TypeUpdated(db.types, id, block)), {}, UpdateType(id, tenant, block));
  }

  lemma CreateReads(
    db: Database, issued: set<Id>, req: Id, tenant: Id, page: Id, key: string, content: Raw, found: Id, stored: Raw)
    requires !content.Malformed? && page in db.pages && db.pages[page].tenant == tenant
    requires IsType(db.types, found, tenant, key) && db.types[found].active
    requires NormalizedContent(db.types[found].block.fields, content) == Ok(stored)
    ensures var s := Idle(db, issued); Leads(s, Alone(s, req, Inserting(tenant, page, key, stored)))
  {
    var s := Idle(db, issued);
    LeadsNowhere(s);
    var creating, inserting := Creating(tenant, page, key, content), Inserting(tenant, page, key, stored);
    LeadsOn(s, s, BeginCreate(req, tenant, page, key, content), Alone(s, req, creating));
    assert SchemaRead(db.types, creating, Some(found)) == Some(inserting);
    LeadsOn(s, Alone(s, req, creating), ReadSchema(req, Some(found)), Alone(s, req, inserting));
  }

  /** A create that answers Done, with the schema row it read. */
  lemma CreateSectionLeads(
    db: Database, issued: set<Id>, req: Id, newID: Id, row: Row<Section>, content: Raw, found: Id)
    requires !content.Malformed? && newID !in issued
    requires row.parent in db.pages && db.pages[row.parent].tenant == row.tenant && row.visible
    requires IsType(db.types, found, row.tenant, row.data.blockType) && db.types[found].active
    requires NormalizedContent(db.types[found].block.fields, content) == Ok(row.data.content)
    requires IsNextOrder(db.sections, row.parent, row.order)
    ensures Leads(Idle(db, issued), Idle(db.(sections := db.sections[newID := row]), issued + {newID}))
  {
    var s := Idle(db, issued);
    var key := row.data.blockType;
    CreateReads(db, issued, req, row.tenant, row.parent, key, content, found, row.data.content);
    LeadsOn(s, Alone(s, req, Inserting(row.tenant, row.parent, key, row.data.content)),
      InsertSection(req, newID, row.order, row.created),
      Idle(db.(sections := db.sections[newID := row]), issued + {newID}));
  }

  /** What an update without content, or with content and the outcome of its schema query, stores. */
  ghost predicate Stores(db: Database, tenant: Id, key: string, content: Raw, found: Option<Id>, stored: Option<Raw>) {
    if content.Empty? then stored.None?
    else if found.None? then stored == Some(content)
    else
      && IsType(db.types, found.value, tenant, key) && db.types[found.value].active
      && stored.Some? && NormalizedContent(db.types[found.value].block.fields, content) == Ok(stored.value)
  }

  lemma UpdateBegins(
    db: Database, issued: set<Id>, req: Id, section: Id, content: Raw, visible: Option<bool>)
    requires content.Doc? && section in db.sections
    ensures var s := Idle(db, issued);
            var row := db.sections[section];
            Leads(s, Alone(s, req, Typed(row.tenant, section, row.data.blockType, content, visible)))
  {
    var s := Idle(db, issued);
    var row := db.sections[section];
    LeadsNowhere(s);
    var begun := Updating(row.tenant, section, content, visible);
    LeadsOn(s, s, BeginUpdate(req, row.tenant, section, content, visible), Alone(s, req, begun));
    LeadsOn(s, Alone(s, req, begun), ReadTypeKey(req),
      Alone(s, req, Typed(row.tenant, section, row.data.blockType, content, visible)));
  }

  lemma UpdateReads(
    db: Database, issued: set<Id>, req: Id, section: Id, content: Raw, visible: Option<bool>, found: Option<Id>,
    stored: Option<Raw>)
    requires !content.Malformed? && section in db.sections
    requires Stores(db, db.sections[section].tenant, db.sections[section].data.blockType, content, found, stored)
    ensures var s := Idle(db, issued);
            Leads(s, Alone(s, req, Storing(db.sections[section].tenant, section, stored, visible)))
  {
    var s := Idle(db, issued);
    var tenant, key := db.sections[section].tenant, db.sections[section].data.blockType;
    var storing := Storing(tenant, section, stored, visible);
    if content.Empty? {
      LeadsNowhere(s);
      LeadsOn(s, s, BeginUpdate(req, tenant, section, content, visible), Alone(s, req, storing));
    } else {
      UpdateBegins(db, issued, req, section, content, visible);
      var typed := Typed(tenant, section, key, content, visible);
      assert SchemaRead(db.types, typed, found) == Some(storing);
      LeadsOn(s, Alone(s, req, typed), ReadSchema(req, found), Alone(s, req, storing));
    }
  }

  /** An update that answers Done. */
  lemma UpdateSectionLeads(
    db: Database, issued: set<Id>, req: Id, section: Id, content: Raw, visible: Option<bool>, found: Option<Id>,
    stored: Option<Raw>)
    requires !content.Malformed? && section in db.sections
    requires Stores(db, db.sections[section].tenant, db.sections[section].data.blockType, content, found, stored)
    ensures Leads(Idle(db, issued),
              Idle(db.(sections := db.sections[section := SectionStored(db.sections[section], stored, visible)]), issued))
  {
    UpdateReads(db, issued, req, section, content, visible, found, stored);
    var s := Idle(db, issued);
    LeadsOn(s, Alone(s, req, Storing(db.sections[section].tenant, section, stored, visible)), StoreSection(req),
      Idle(db.(sections := db.sections[section := SectionStored(db.sections[section], stored, visible)]), issued));
  }

  lemma ArchiveCounts(db: Database, issued: set<Id>, req: Id, tenant: Id, id: Id)
    requires TypeUpdatable(db.types, id, tenant) && !InUse(db.sections, tenant, db.types[id].key)
    ensures var s := Idle(db, issued); Leads(s, Alone(s, req, Archivable(tenant, id)))
  {
    var s := Idle(db, issued);
    LeadsNowhere(s);
    var archiving := Archiving(tenant, id, db.types[id].key);
    LeadsOn(s, s, BeginArchive(req, tenant, id), Alone(s, req, archiving));
    LeadsOn(s, Alone(s, req, archiving), CountUses(req), Alone(s, req, Archivable(tenant, id)));
  }

  /** An archive that answers Done. */
  lemma ArchiveLeads(db: Database, issued: set<Id>, req: Id, tenant: Id, id: Id)
    requires TypeUpdatable(db.types, id, tenant) && !InUse(db.sections, tenant, db.types[id].key)
    ensures Leads(Idle(db, issued), Idle(db.(types := TypeArchived(db.types, id, tenant)), issued))
  {
    ArchiveCounts(db, issued, req, tenant, id);
    var s := Idle(db, issued);
    LeadsOn(s, Alone(s, req, Archivable(tenant, id)), Archive(req),
      Idle(db.(types := TypeArchived(db.types, id, tenant)), issued));
  }

  lemma CreateSectionRuns(db: Database, newID: Id, row: Row<Section>, content: Raw, found: Id)
    requires !content.Malformed?
    requires row.parent in db.pages && db.pages[row.parent].tenant == row.tenant && row.visible
    requires IsType(db.types, found, row.tenant, row.data.blockType) && db.types[found].active
    requires NormalizedContent(db.types[found].block.fields, content) == Ok(row.data.content)
    requires IsNextOrder(db.sections, row.parent, row.order)
    ensures Runs(db, db.(sections := db.sections[newID := row]), {newID})
  {
    forall issued: set<Id> | issued !! {newID}
      ensures Leads(Idle(db, issued), Idle(db.(sections := db.sections[newID := row]), issued + {newID}))
    {
      CreateSectionLeads(db, issued, "", newID, row, content, found);
    }
  }

  lemma UpdateSectionRuns(
    db: Database, section: Id, content: Raw, visible: Option<bool>, found: Option<Id>, stored: Option<Raw>)
    requires !content.Malformed? && section in db.sections
    requires Stores(db, db.sections[section].tenant, db.sections[section].data.blockType, content, found, stored)
    ensures Runs(
              db, db.(sections := db.sections[section := SectionStored(db.sections[section], stored, visible)]), {})
  {
    var after := db.(sections := db.sections[section := SectionStored(db.sections[section], stored, visible)]);
    forall issued: set<Id> ensures Leads(Idle(db, issued), Idle(after, issued + {})) {
      UpdateSectionLeads(db, issued, "", section, content, visible, found, stored);
      assert issued + {} == issued;
    }
  }

  lemma ArchiveRuns(db: Database, tenant: Id, id: Id)
    requires TypeUpdatable(db.types, id, tenant) && !InUse(db.sections, tenant, db.types[id].key)
    ensures Runs(db, db.(types := TypeArchived(db.types, id, tenant)), {})
  {
    forall issued: set<Id> ensures Leads(Idle(db, issued), Idle(db.(types := TypeArchived(db.types, id, tenant)), issued + {})) {
      ArchiveLeads(db, issued, "", tenant, id);
      assert issued + {} == issued;
    }
  }
}
