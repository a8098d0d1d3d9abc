/** The content handlers as the program text orders their statements, one request at a time
    (internal/httpapi/handlers_pages.go, internal/httpapi/handlers_sectiontypes.go); whatever its answer, each call is
    a run of the state machine of ContentProtocol. */
module Handlers {
  import opened Results
  import opened Json
  import opened Schema
  import opened Normalize
  import opened Snapshots
  import opened Slug
  import opened Ordered
  import opened Queries
  import opened Content
  import opened ContentProtocol
  import opened ContentInvariant
  import opened HandlerRuns
  import opened Starter

  datatype Response = NotFound | BadRequest | Conflict | Done

  /** The characters that strings.TrimSpace removes. */
  predicate IsSpace(c: char) {
    || '\U{0009}' <= c <= '\U{000D}' || c == ' ' || c == '\U{0085}' || c == '\U{00A0}' || c == '\U{1680}'
    || '\U{2000}' <= c <= '\U{200A}' || c == '\U{2028}' || c == '\U{2029}' || c == '\U{202F}' || c == '\U{205F}'
    || c == '\U{3000}'
  }

  function TrimSpace(s: string): string {
    if s != "" && IsSpace(s[0]) then TrimSpace(s[1..])
    else if s != "" && IsSpace(s[|s| - 1]) then TrimSpace(s[..|s| - 1])
    else s
  }

  ghost predicate Spaces(s: string) { forall i :: 0 <= i < |s| ==> IsSpace(s[i]) }

  ghost predicate Between(s: string, before: string, t: string, after: string) {
    s == before + t + after && Spaces(before) && Spaces(after)
  }

  /** The string without the spaces at its two ends. */
  ghost predicate TrimmedTo(s: string, t: string) {
    && (exists before, after :: Between(s, before, t, after))
    && (t != "" ==> !IsSpace(t[0]) && !IsSpace(t[|t| - 1]))
  }

  lemma {:induction false} TrimSpaceTrims(s: string)
    ensures TrimmedTo(s, TrimSpace(s))
  {
    var t := TrimSpace(s);
    if s != "" && IsSpace(s[0]) {
      TrimSpaceTrims(s[1..]);
      var before, after :| Between(s[1..], before, t, after);
      assert s == [s[0]] + s[1..];
      assert Between(s, [s[0]] + before, t, after);
    } else if s != "" && IsSpace(s[|s| - 1]) {
      TrimSpaceTrims(s[..|s| - 1]);
      var before, after :| Between(s[..|s| - 1], before, t, after);
      assert s == s[..|s| - 1] + [s[|s| - 1]];
      assert Between(s, before, t, after + [s[|s| - 1]]);
    } else {
      assert Between(s, "", t, "");
    }
  }

  /** UPDATE ... FROM unnest(ids) WITH ORDINALITY: among several mentions of a row, the last one is taken. */
  method Renumber<T>(t: Table<T>, ids: seq<Id>, parent: Id, tenant: Id) returns (u: Table<T>)
    ensures Reordered(t, ids, parent, tenant, u)
  {
    u := t;
    for i := 0 to |ids|
      invariant u.Keys == t.Keys
      invariant forall id :: Targeted(t, ids[..i], parent, tenant, id) ==>
                  0 <= u[id].order < i && ids[u[id].order] == id && u[id] == t[id].(order := u[id].order)
      invariant forall id :: id in t && !Targeted(t, ids[..i], parent, tenant, id) ==> u[id] == t[id]
    {
      var id := ids[i];
      assert ids[..i + 1] == ids[..i] + [id];
      if Belongs(t, parent, tenant, id) {
        u := u[id := u[id].(order := i)];
      }
      assert forall x :: Targeted(t, ids[..i + 1], parent, tenant, x) ==>
               x == id || Targeted(t, ids[..i], parent, tenant, x);
    }
    assert ids[..|ids|] == ids;
  }

  /** A new row of a parent comes last in its listings, which are otherwise those of the old table. */
  ghost predicate Appended<T>(t: Table<T>, u: Table<T>, newID: Id, parent: Id, tenant: Id) {
    && (forall ids :: IsListing(u, parent, tenant, ids) ==> ids != [] && ids[|ids| - 1] == newID)
    && (forall ids :: IsListing(t, parent, tenant, ids) <==> IsListing(u, parent, tenant, ids + [newID]))
  }

  lemma CreateIsAppend<T>(t: Table<T>, newID: Id, row: Row<T>)
    requires newID !in t && IsNextOrder(t, row.parent, row.order)
    ensures Appended(t, t[newID := row], newID, row.parent, row.tenant)
  {
    var u := t[newID := row];
    forall ids
      ensures IsListing(u, row.parent, row.tenant, ids) ==> ids != [] && ids[|ids| - 1] == newID
      ensures IsListing(t, row.parent, row.tenant, ids) <==> IsListing(u, row.parent, row.tenant, ids + [newID])
    {
      CreateAppends(t, newID, row, ids);
    }
  }

  /** Once a request names every row of a parent once, its listing is the request without the foreign ids. */
  ghost predicate ListsAsAsked<T>(t: Table<T>, u: Table<T>, ids: seq<Id>, parent: Id, tenant: Id) {
    NamesEachOnce(t, ids, parent, tenant) ==>
      forall l :: IsListing(u, parent, tenant, l) <==> l == Kept(ids, RowsOf(t, parent, tenant))
  }

  ghost predicate OthersListAsBefore<T>(t: Table<T>, u: Table<T>, parent: Id, tenant: Id) {
    forall p, n, l :: p != parent || n != tenant ==> (IsListing(t, p, n, l) <==> IsListing(u, p, n, l))
  }

  lemma ReorderEffect<T>(t: Table<T>, u: Table<T>, ids: seq<Id>, parent: Id, tenant: Id)
    requires Reordered(t, ids, parent, tenant, u)
    ensures ListsAsAsked(t, u, ids, parent, tenant) && OthersListAsBefore(t, u, parent, tenant)
  {
    if NamesEachOnce(t, ids, parent, tenant) {
      forall l ensures IsListing(u, parent, tenant, l) <==> l == Kept(ids, RowsOf(t, parent, tenant)) {
        ReorderLists(t, ids, parent, tenant, u, l);
      }
    }
    forall p, n, l | p != parent || n != tenant ensures IsListing(t, p, n, l) <==> IsListing(u, p, n, l) {
      ReorderElsewhere(t, ids, parent, tenant, u, p, n, l);
    }
  }

  function RowsAt<T>(t: Table<T>, ids: seq<Id>): (rows: seq<Row<T>>)
    requires forall id :: id in ids ==> id in t
    ensures |rows| == |ids| && forall i :: 0 <= i < |ids| ==> rows[i] == t[ids[i]]
  {
    seq(|ids|, i requires 0 <= i < |ids| => t[ids[i]])
  }

  /** The scan loop of a listing. */
  method Scan<T>(t: Table<T>, ids: seq<Id>) returns (rows: seq<Row<T>>)
    requires forall id :: id in ids ==> id in t
    ensures rows == RowsAt(t, ids)
  {
    rows := [];
    for i := 0 to |ids|
      invariant rows == RowsAt(t, ids)[..i]
    {
      rows := rows + [t[ids[i]]];
    }
  }

  /** What an update puts into a section of a type: an object by the schema of its active type, if that was found. */
  ghost predicate StoredAs(
    types: Types, tenant: Id, key: string, content: Raw, answered: bool, stored: Option<Raw>)
  {
    if content.Empty? then stored.None?
    else if !answered || !ActiveType(types, tenant, key) then stored == Some(content)
    else
      && stored.Some? && IsObject(stored.value)
      && exists id :: IsType(types, id, tenant, key) && types[id].active
           && NormalizedContent(types[id].block.fields, content) == Ok(stored.value)
  }

  /** An update that is answered with success: one row changes, as sent and as far as its content is to be stored. */
  ghost predicate SectionUpdated(
    before: Database, after: Database, section: Id, content: Raw, visible: Option<bool>, answered: bool)
  {
    && section in before.sections && section in after.sections
    && after == before.(sections := before.sections[section := after.sections[section]])
    && var row := before.sections[section];
    && exists stored ::
         && StoredAs(before.types, row.tenant, row.data.blockType, content, answered, stored)
         && SectionChanged(row, stored, visible, after.sections[section])
  }

  /** A row that seeding stores: a type of the library, active. */
  function Seeded(tenant: Id, t: StarterType): TypeRow { TypeRow(tenant, t.key, t.block, true) }

  predicate InLibrary(library: seq<StarterType>, n: nat, key: string)
    requires n <= |library|
  {
    exists i :: 0 <= i < n && library[i].key == key
  }

  /** Old rows are untouched; new rows are among the first n types of a library, active, each under its own new id. */
  ghost predicate SeededRows(
    before: Types, types: Types, tenant: Id, library: seq<StarterType>, newIDs: seq<Id>, n: nat)
    requires n <= |library| == |newIDs|
  {
    && (forall id :: id in before ==> id in types && types[id] == before[id])
    && (forall id :: id in types && id !in before ==>
          exists i :: 0 <= i < n && newIDs[i] == id && types[id] == Seeded(tenant, library[i]))
  }

  /** A key has a type exactly when it had one or is among the first n. */
  ghost predicate SeededKeys(before: Types, types: Types, tenant: Id, library: seq<StarterType>, n: nat)
    requires n <= |library|
  {
    forall key :: HasType(types, tenant, key) <==> HasType(before, tenant, key) || InLibrary(library, n, key)
  }

  ghost predicate SeededFrom(
    before: Types, types: Types, tenant: Id, library: seq<StarterType>, newIDs: seq<Id>, n: nat)
    requires n <= |library| == |newIDs|
  {
    SeededRows(before, types, tenant, library, newIDs, n) && SeededKeys(before, types, tenant, library, n)
  }

  lemma OneMoreKey(library: seq<StarterType>, n: nat)
    requires n < |library|
    ensures forall key :: InLibrary(library, n + 1, key) <==> InLibrary(library, n, key) || key == library[n].key
  {
    forall key ensures InLibrary(library, n + 1, key) <==> InLibrary(library, n, key) || key == library[n].key {
      if InLibrary(library, n, key) {
        var i :| 0 <= i < n && library[i].key == key;
        assert 0 <= i < n + 1 && library[i].key == key;
      }
    }
  }

  lemma SeedAnotherKey(before: Types, types: Types, tenant: Id, library: seq<StarterType>, newID: Id, n: nat)
    requires n < |library| && newID !in types && SeededKeys(before, types, tenant, library, n)
    ensures var t := library[n];
            if HasType(types, tenant, t.key) then SeededKeys(before, types, tenant, library, n + 1)
            else SeededKeys(before, TypeInserted(types, newID, tenant, t.key, t.block), tenant, library, n + 1)
  {
    OneMoreKey(library, n);
    InsertedKeys(types, newID, tenant, library[n].key, library[n].block);
  }

  lemma SeedAnotherRow(before: Types, types: Types, tenant: Id, library: seq<StarterType>, newIDs: seq<Id>, n: nat)
    requires n < |library| == |newIDs| && Distinct(newIDs) && newIDs[n] !in before
    requires SeededRows(before, types, tenant, library, newIDs, n)
    ensures newIDs[n] !in types
    ensures SeededRows(before, types, tenant, library, newIDs, n + 1)
    ensures var t := library[n];
            SeededRows(before, TypeInserted(types, newIDs[n], tenant, t.key, t.block), tenant, library, newIDs, n + 1)
  {
    var t := library[n];
    var u := TypeInserted(types, newIDs[n], tenant, t.key, t.block);
    forall id | id in types && id !in before
      ensures id != newIDs[n]
      ensures exists i :: 0 <= i < n + 1 && newIDs[i] == id && types[id] == Seeded(tenant, library[i])
    {
      var i :| 0 <= i < n && newIDs[i] == id && types[id] == Seeded(tenant, library[i]);
      assert i < n + 1 && newIDs[i] == id && types[id] == Seeded(tenant, library[i]);
    }
    assert u[newIDs[n]] == Seeded(tenant, library[n]);
  }

  class Server {
    var db: Database

    ghost predicate Valid()
      reads this
    {
      DatabaseOk(db)
    }

    // ---- Pages ----

    method ListPages(tenant: Id, website: Id) returns (ids: seq<Id>, pages: seq<Row<PageInfo>>)
      ensures IsListing(db.pages, website, tenant, ids)
      ensures pages == RowsAt(db.pages, ids)
    {
      ids := ListRows(db.pages, website, tenant);
      pages := Scan(db.pages, ids);
    }

    method CreatePage(newID: Id, tenant: Id, website: Id, info: PageInfo, now: int) returns (r: Response)
      requires Valid() && newID !in db.pages
      modifies this
      ensures Valid()
      ensures r ==
        if website !in old(db).websites || old(db).websites[website].tenant != tenant then NotFound
        else if TrimSpace(info.title) == "" || !ValidSlug(info.slug) then BadRequest
        else if SlugTaken(old(db).pages, website, info.slug, newID) then Conflict
        else Done
      ensures r != Done ==> db == old(db)
      ensures r == Done ==>
        && newID in db.pages
        && db == old(db).(pages := old(db).pages[newID := db.pages[newID]])
        && db.pages[newID] == Row(tenant, website, db.pages[newID].order, now, true,
                                  info.(title := TrimSpace(info.title)))
        && IsNextOrder(old(db).pages, website, db.pages[newID].order)
        && Appended(old(db).pages, db.pages, newID, website, tenant)
      ensures Runs(old(db), db, if r == Done then {newID} else {})
    {
      NothingRuns(db);
      if website !in db.websites || db.websites[website].tenant != tenant {
        return NotFound;
      }
      if TrimSpace(info.title) == "" || !ValidSlug(info.slug) {
        return BadRequest;
      }
      if SlugTaken(db.pages, website, info.slug, newID) {
        return Conflict;
      }
      var order := NextOrder(db.pages, website);
      var row := Row(tenant, website, order, now, true, info.(title := TrimSpace(info.title)));
      InsertPageKeepsPages(db.pages, newID, row);
      CreateIsAppend(db.pages, newID, row);
      CreatePageRuns(db, newID, row);
      db := db.(pages := db.pages[newID := row]);
      return Done;
    }

    method UpdatePage(tenant: Id, page: Id, patch: PagePatch) returns (r: Response)
      requires Valid()
      modifies this
      ensures Valid()
      ensures r ==
        if patch.slug.Some? && !ValidSlug(patch.slug.value) then BadRequest
        else if page !in old(db).pages || old(db).pages[page].tenant != tenant then NotFound
        else if patch.slug.Some? && SlugTaken(old(db).pages, old(db).pages[page].parent, patch.slug.value, page)
        then Conflict
        else Done
      ensures r != Done ==> db == old(db)
      ensures r == Done ==>
        && page in db.pages && PageChanged(old(db).pages[page], patch, db.pages[page])
        && db == old(db).(pages := old(db).pages[page := db.pages[page]])
      ensures r == Done ==> forall p, n, ids :: IsListing(old(db).pages, p, n, ids) <==> IsListing(db.pages, p, n, ids)
      ensures Runs(old(db), db, {})
    {
      NothingRuns(db);
      if patch.slug.Some? && !ValidSlug(patch.slug.value) {
        return BadRequest;
      }
      if page !in db.pages || db.pages[page].tenant != tenant {
        return NotFound;
      }
      var row := Patched(db.pages[page], patch);
      if SlugTaken(db.pages, row.parent, row.data.slug, page) {
        return Conflict;
      }
      PatchKeepsPages(db.pages, page, patch);
      StatementRuns(db, db.(pages := db.pages[page := row]), {}, ContentProtocol.UpdatePage(page, tenant, patch));
      ghost var before := db.pages;
      db := db.(pages := db.pages[page := row]);
      forall p, n, ids ensures IsListing(before, p, n, ids) <==> IsListing(db.pages, p, n, ids) {
        SameRowsSameListings(before, db.pages, p, n, ids);
      }
      return Done;
    }

    method DeletePage(tenant: Id, page: Id) returns (r: Response)
      requires Valid()
      modifies this
      ensures Valid()
      ensures r == if page in old(db).pages && old(db).pages[page].tenant == tenant then Done else NotFound
      ensures r == NotFound ==> db == old(db)
      ensures r == Done ==>
        && db == old(db).(pages := old(db).pages - {page}, sections := db.sections)
        && forall s :: if s in old(db).sections && old(db).sections[s].parent != page
             then s in db.sections && db.sections[s] == old(db).sections[s]
             else s !in db.sections
      ensures r == Done ==> forall website, n, ids :: IsListing(old(db).pages, website, n, ids) ==>
        IsListing(db.pages, website, n, Ordered.Without(ids, page))
      ensures Runs(old(db), db, {})
    {
      NothingRuns(db);
      if page !in db.pages || db.pages[page].tenant != tenant {
        return NotFound;
      }
      ghost var before := db;
      StatementRuns(db, PageDeleted(db, page), {}, ContentProtocol.DeletePage(page, tenant));
      db := PageDeleted(db, page);
      forall website, n, ids | IsListing(before.pages, website, n, ids)
        ensures IsListing(db.pages, website, n, Ordered.Without(ids, page))
      {
        DeletePageErases(before, page, website, n, ids);
      }
      return Done;
    }

    method ReorderPages(tenant: Id, website: Id, ids: seq<Id>) returns (r: Response)
      requires Valid()
      modifies this
      ensures Valid()
      ensures r == if ids == [] then BadRequest else Done
      ensures r == BadRequest ==> db == old(db)
      ensures db == old(db).(pages := db.pages)
      ensures r == Done ==> Reordered(old(db).pages, ids, website, tenant, db.pages)
      ensures r == Done ==> ListsAsAsked(old(db).pages, db.pages, ids, website, tenant)
      ensures r == Done ==> OthersListAsBefore(old(db).pages, db.pages, website, tenant)
      ensures Runs(old(db), db, {})
    {
      NothingRuns(db);
      if ids == [] {
        return BadRequest;
      }
      var pages := Renumber(db.pages, ids, website, tenant);
      ReorderKeepsPages(db.pages, ids, website, tenant, pages);
      ReorderEffect(db.pages, pages, ids, website, tenant);
      ReorderPagesRuns(db, ids, website, tenant, pages);
      db := db.(pages := pages);
      return Done;
    }

    // ---- Sections ----

    method ListSections(tenant: Id, page: Id) returns (ids: seq<Id>, sections: seq<Row<Section>>)
      ensures IsListing(db.sections, page, tenant, ids)
      ensures sections == RowsAt(db.sections, ids)
    {
      ids := ListRows(db.sections, page, tenant);
      sections := Scan(db.sections, ids);
    }

    /** Only active types are found, and none when the query fails: the caller cannot tell the two apart. */
    method SectionTypeFields(tenant: Id, key: string, answered: bool) returns (schema: Option<seq<FieldSpec>>)
      ensures schema.Some? <==> answered && ActiveType(db.types, tenant, key)
      ensures schema.Some? ==>
        exists id :: IsType(db.types, id, tenant, key) && db.types[id].active && db.types[id].block.fields == schema.value
    {
      if !answered {
        return None;
      }
      if id :| id in db.types && IsType(db.types, id, tenant, key) && db.types[id].active {
        return Some(db.types[id].block.fields);
      }
      return None;
    }

    method CreateSection(newID: Id, tenant: Id, page: Id, key: string, content: Raw, answered: bool, now: int)
      returns (r: Response)
      requires Valid() && newID !in db.sections
      modifies this
      ensures Valid()
      ensures r ==
        if page !in old(db).pages || old(db).pages[page].tenant != tenant then NotFound
        else if !answered || !ActiveType(old(db).types, tenant, key) || Decode(content).Err? then BadRequest
        else Done
      ensures r != Done ==> db == old(db)
      ensures r == Done ==>
        && newID in db.sections && IsObject(db.sections[newID].data.content)
        && db == old(db).(sections := old(db).sections[newID := db.sections[newID]])
        && db.sections[newID] == Row(tenant, page, db.sections[newID].order, now, true,
                                     Section(key, db.sections[newID].data.content))
        && (exists id :: IsType(db.types, id, tenant, key) && db.types[id].active
              && NormalizedContent(db.types[id].block.fields, content) == Ok(db.sections[newID].data.content))
      ensures r == Done ==>
        && IsNextOrder(old(db).sections, page, db.sections[newID].order)
        && Appended(old(db).sections, db.sections, newID, page, tenant)
      ensures Runs(old(db), db, if r == Done then {newID} else {})
    {
      NothingRuns(db);
      if page !in db.pages || db.pages[page].tenant != tenant {
        return NotFound;
      }
      var schema := SectionTypeFields(tenant, key, answered);
      if schema.None? {
        return BadRequest;
      }
      var normalized := NormalizeContent(schema.value, content);
      if normalized.Err? {
        return BadRequest;
      }
      NormalizedIsObject(schema.value, content);
      var order := NextOrder(db.sections, page);
      var row := Row(tenant, page, order, now, true, Section(key, normalized.value));
      InsertSectionKeepsSections(db.types, db.sections, newID, row);
      CreateIsAppend(db.sections, newID, row);
      ghost var found :| IsType(db.types, found, tenant, key) && db.types[found].active
        && db.types[found].block.fields == schema.value;
      CreateSectionRuns(db, newID, row, content, found);
      db := db.(sections := db.sections[newID := row]);
      return Done;
    }

    /** The content to store: none when none was sent, normalized by the active schema, or as it was sent when no schema
        is found. */
    method ContentToStore(tenant: Id, key: string, content: Raw, answered: bool)
      returns (refused: bool, stored: Option<Raw>)
      requires !content.Malformed?
      ensures refused <==> !content.Empty? && answered && ActiveType(db.types, tenant, key) && Decode(content).Err?
      ensures !refused ==> StoredAs(db.types, tenant, key, content, answered, stored)
      ensures !refused ==> exists found :: Stores(db, tenant, key, content, found, stored)
    {
      if content.Empty? {
        assert Stores(db, tenant, key, content, None, None);
        return false, None;
      }
      var schema := SectionTypeFields(tenant, key, answered);
      if schema.None? {
        assert Stores(db, tenant, key, content, None, Some(content));
        return false, Some(content);
      }
      var normalized := NormalizeContent(schema.value, content);
      NormalizedIsObject(schema.value, content);
      if normalized.Err? {
        return true, None;
      }
      ghost var id :| IsType(db.types, id, tenant, key) && db.types[id].active && db.types[id].block.fields == schema.value;
      assert Stores(db, tenant, key, content, Some(id), Some(normalized.value));
      return false, Some(normalized.value);
    }

    /** The store stays valid exactly unless a failed schema query lets something other than an object into a
        section of an active type. */
    method UpdateSection(tenant: Id, section: Id, content: Raw, visible: Option<bool>, answered: bool)
      returns (r: Response)
      requires Valid() && !content.Malformed?
      modifies this
      ensures r ==
        if !Targets(old(db).sections, section, tenant) then NotFound
        else if !content.Empty? && answered && Decode(content).Err?
          && ActiveType(old(db).types, tenant, old(db).sections[section].data.blockType) then BadRequest
        else Done
      ensures r != Done ==> db == old(db)
      ensures r == Done ==> SectionUpdated(old(db), db, section, content, visible, answered)
      ensures Valid() <==>
        !(r == Done && !answered && ActiveType(db.types, tenant, old(db).sections[section].data.blockType)
          && content.Doc? && !IsObject(content))
      ensures Runs(old(db), db, {})
    {
      NothingRuns(db);
      if section !in db.sections || db.sections[section].tenant != tenant {
        return NotFound;
      }
      var row := db.sections[section];
      var refused, stored := ContentToStore(tenant, row.data.blockType, content, answered);
      if refused {
        return BadRequest;
      }
      ghost var found :| Stores(db, tenant, row.data.blockType, content, found, stored);
      UpdateSectionRuns(db, section, content, visible, found, stored);
      StoredIsOk(db, section, stored, visible);
      UpdateIsDone(db, section, content, visible, answered, stored);
      db := db.(sections := db.sections[section := SectionStored(row, stored, visible)]);
      return Done;
    }

    method DeleteSection(tenant: Id, section: Id) returns (r: Response)
      requires Valid()
      modifies this
      ensures Valid()
      ensures r == if section in old(db).sections && old(db).sections[section].tenant == tenant then Done else NotFound
      ensures r == NotFound ==> db == old(db)
      ensures r == Done ==> db == old(db).(sections := old(db).sections - {section})
      ensures r == Done ==> forall page, n, ids :: IsListing(old(db).sections, page, n, ids) ==>
        IsListing(db.sections, page, n, Ordered.Without(ids, section))
      ensures Runs(old(db), db, {})
    {
      NothingRuns(db);
      if section !in db.sections || db.sections[section].tenant != tenant {
        return NotFound;
      }
      ghost var before := db.sections;
      StatementRuns(db, db.(sections := db.sections - {section}), {}, ContentProtocol.DeleteSection(section, tenant));
      db := db.(sections := db.sections - {section});
      forall page, n, ids | IsListing(before, page, n, ids)
        ensures IsListing(db.sections, page, n, Ordered.Without(ids, section))
      {
        DeleteErases(before, section, page, n, ids);
      }
      return Done;
    }

    method ReorderSections(tenant: Id, page: Id, ids: seq<Id>) returns (r: Response)
      requires Valid()
      modifies this
      ensures Valid()
      ensures r == if ids == [] then BadRequest else Done
      ensures r == BadRequest ==> db == old(db)
      ensures db == old(db).(sections := db.sections)
      ensures r == Done ==> Reordered(old(db).sections, ids, page, tenant, db.sections)
      ensures r == Done ==> ListsAsAsked(old(db).sections, db.sections, ids, page, tenant)
      ensures r == Done ==> OthersListAsBefore(old(db).sections, db.sections, page, tenant)
      ensures Runs(old(db), db, {})
    {
      NothingRuns(db);
      if ids == [] {
        return BadRequest;
      }
      var sections := Renumber(db.sections, ids, page, tenant);
      ReorderKeepsSections(db.types, db.sections, ids, page, tenant, sections);
      ReorderEffect(db.sections, sections, ids, page, tenant);
      ReorderSectionsRuns(db, ids, page, tenant, sections);
      db := db.(sections := sections);
      return Done;
    }

    // ---- Block types ----

    method CreateSectionType(newID: Id, tenant: Id, key: string, block: BlockType) returns (r: Response)
      requires Valid() && newID !in db.types
      modifies this
      ensures Valid()
      ensures r ==
        if !ValidSlug(Hyphened(key)) || TrimSpace(block.title) == "" || !ValidSchema(block.fields, block.layout)
        then BadRequest
        else if HasType(old(db).types, tenant, key) then Conflict
        else Done
      ensures r != Done ==> db == old(db)
      ensures r == Done ==>
        db == old(db).(types :=
          old(db).types[newID := TypeRow(tenant, key, block.(title := TrimSpace(block.title)), true)])
      ensures Runs(old(db), db, if r == Done then {newID} else {})
    {
      NothingRuns(db);
      var fault := ValidateSchema(block.fields, block.layout);
      FaultlessIffValid(block.fields, block.layout);
      if !ValidSlug(Hyphened(key)) || TrimSpace(block.title) == "" || fault.Some? {
        return BadRequest;
      }
      if HasType(db.types, tenant, key) {
        return Conflict;
      }
      var stored := block.(title := TrimSpace(block.title));
      InsertTypeAdvances(db.types, newID, tenant, key, stored);
      SectionsStayOk(db.types, TypeInserted(db.types, newID, tenant, key, stored), db.sections);
      StatementRuns(
        db, db.(types := TypeInserted(db.types, newID, tenant, key, stored)), {newID},
        CreateType(newID, tenant, key, stored));
      db := db.(types := TypeInserted(db.types, newID, tenant, key, stored));
      return Done;
    }

    /** Inserts the library of a new tenant; keys that are taken are left untouched. */
    method SeedSectionTypes(tenant: Id, library: seq<StarterType>, newIDs: seq<Id>)
      requires Valid() && AllGood(library) && |newIDs| == |library| && Distinct(newIDs)
      requires forall id :: id in newIDs ==> id !in db.types
      modifies this
      ensures Valid() && db == old(db).(types := db.types)
      ensures SeededFrom(old(db).types, db.types, tenant, library, newIDs, |library|)
      ensures exists used: set<Id> :: (forall id :: id in used ==> id in newIDs) && Runs(old(db), db, used)
    {
      ghost var used: set<Id> := {};
      NothingRuns(db);
      for i := 0 to |library|
        invariant Valid() && db == old(db).(types := db.types)
        invariant SeededFrom(old(db).types, db.types, tenant, library, newIDs, i)
        invariant forall id :: id in used ==> id in newIDs[..i]
        invariant Runs(old(db), db, used)
      {
        var t := library[i];
        assert Good(t);
        SeedAnotherRow(old(db).types, db.types, tenant, library, newIDs, i);
        SeedAnotherKey(old(db).types, db.types, tenant, library, newIDs[i], i);
        if !HasType(db.types, tenant, t.key) {
          FaultlessIffValid(t.block.fields, t.block.layout);
          var types := TypeInserted(db.types, newIDs[i], tenant, t.key, t.block);
          InsertTypeAdvances(db.types, newIDs[i], tenant, t.key, t.block);
          SectionsStayOk(db.types, types, db.sections);
          SeedRuns(old(db), db, used, newIDs[i], tenant, t.key, t.block);
          used := used + {newIDs[i]};
          db := db.(types := types);
        }
      }
    }

    /** What a new tenant starts with. */
    method SeedTenant(tenant: Id, newIDs: seq<Id>)
      requires Valid() && |newIDs| == |Library()| && Distinct(newIDs)
      requires forall id :: id in newIDs ==> id !in db.types
      modifies this
      ensures Valid() && db == old(db).(types := db.types)
      ensures SeededFrom(old(db).types, db.types, tenant, Library(), newIDs, |Library()|)
    {
      LibraryIsGood();
      SeedSectionTypes(tenant, Library(), newIDs);
    }

    method UpdateSectionType(tenant: Id, id: Id, block: BlockType) returns (r: Response)
      requires Valid()
      modifies this
      ensures Valid()
      ensures r ==
        if TrimSpace(block.title) == "" || !ValidSchema(block.fields, block.layout) then BadRequest
        else if id !in old(db).types || old(db).types[id].tenant != tenant || !old(db).types[id].active then NotFound
        else Done
      ensures r != Done ==> db == old(db)
      ensures r == Done ==>
        db == old(db).(types :=
          old(db).types[id := old(db).types[id].(block := block.(title := TrimSpace(block.title)))])
      ensures Runs(old(db), db, {})
    {
      NothingRuns(db);
      var fault := ValidateSchema(block.fields, block.layout);
      FaultlessIffValid(block.fields, block.layout);
      if TrimSpace(block.title) == "" || fault.Some? {
        return BadRequest;
      }
      if !TypeUpdatable(db.types, id, tenant) {
        return NotFound;
      }
      var stored := block.(title := TrimSpace(block.title));
      UpdateTypeAdvances(db.types, id, stored);
      SectionsStayOk(db.types, TypeUpdated(db.types, id, stored), db.sections);
      UpdateTypeRuns(db, id, tenant, stored);
      db := db.(types := TypeUpdated(db.types, id, stored));
      return Done;
    }

    /** Alone, an archive leaves no section of the type behind. */
    method ArchiveSectionType(tenant: Id, id: Id) returns (r: Response)
      requires Valid()
      modifies this
      ensures Valid()
      ensures r ==
        if id !in old(db).types || old(db).types[id].tenant != tenant || !old(db).types[id].active then NotFound
        else if exists s :: s in old(db).sections && old(db).sections[s].tenant == tenant
                         && old(db).sections[s].data.blockType == old(db).types[id].key then Conflict
        else Done
      ensures r != Done ==> db == old(db)
      ensures r == Done ==>
        && db == old(db).(types := old(db).types[id := old(db).types[id].(active := false)])
        && !ActiveType(db.types, tenant, db.types[id].key)
        && !InUse(db.sections, tenant, db.types[id].key)
      ensures Runs(old(db), db, {})
    {
      NothingRuns(db);
      if !TypeUpdatable(db.types, id, tenant) {
        return NotFound;
      }
      if InUse(db.sections, tenant, db.types[id].key) {
        return Conflict;
      }
      ArchiveTypeAdvances(db.types, id, tenant);
      SectionsStayOk(db.types, TypeArchived(db.types, id, tenant), db.sections);
      ArchiveRuns(db, tenant, id);
      db := db.(types := TypeArchived(db.types, id, tenant));
      return Done;
    }
  }

  lemma InsertedKeys(types: Types, newID: Id, tenant: Id, key: string, block: BlockType)
    requires newID !in types
    ensures forall k :: HasType(TypeInserted(types, newID, tenant, key, block), tenant, k) <==>
              HasType(types, tenant, k) || k == key
  {
    var u := TypeInserted(types, newID, tenant, key, block);
    forall k ensures HasType(u, tenant, k) <==> HasType(types, tenant, k) || k == key {
      if HasType(types, tenant, k) {
        var id :| id in types && IsType(types, id, tenant, k);
        assert IsType(u, id, tenant, k);
      }
      assert IsType(u, newID, tenant, key);
      if HasType(u, tenant, k) && k != key {
        var id :| id in u && IsType(u, id, tenant, k);
        assert IsType(types, id, tenant, k);
      }
    }
  }

  lemma UpdateIsDone(
    db: Database, section: Id, content: Raw, visible: Option<bool>, answered: bool, stored: Option<Raw>)
    requires section in db.sections
    requires StoredAs(
               db.types, db.sections[section].tenant, db.sections[section].data.blockType, content, answered, stored)
    ensures var row := SectionStored(db.sections[section], stored, visible);
            SectionUpdated(db, db.(sections := db.sections[section := row]), section, content, visible, answered)
  {
    assert SectionChanged(
        db.sections[section], stored, visible, SectionStored(db.sections[section], stored, visible));
  }

  lemma StoredIsOk(db: Database, section: Id, stored: Option<Raw>, visible: Option<bool>)
    requires DatabaseOk(db) && section in db.sections
    ensures var row := db.sections[section];
            DatabaseOk(db.(sections := db.sections[section := SectionStored(row, stored, visible)])) <==>
            stored.None? || IsObject(stored.value) || !ActiveType(db.types, row.tenant, row.data.blockType)
  {
    var row := db.sections[section];
    var after := db.sections[section := SectionStored(row, stored, visible)];
    assert SectionOk(db.types, row.tenant, row.data);
    assert SectionsOk(db.types, after) <==> SectionOk(db.types, row.tenant, after[section].data) by {
      forall id | id in after && id != section ensures SectionOk(db.types, after[id].tenant, after[id].data) {
        assert SectionOk(db.types, db.sections[id].tenant, db.sections[id].data);
      }
    }
  }
}
