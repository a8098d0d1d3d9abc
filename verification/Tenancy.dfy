/** Tenants keep to themselves (internal/httpapi/handlers_pages.go, internal/httpapi/handlers_sectiontypes.go). */
module Tenancy {
  import opened Ordered
  import opened Content
  import opened ContentProtocol

  // ---- Where sections lie ----

  ghost predicate OnPage(pages: Table<PageInfo>, page: Id, tenant: Id) {
    page in pages && pages[page].tenant == tenant
  }

  /** The page of a pending create, while it exists, is the request's tenant's. */
  ghost predicate RequestPlaced(pages: Table<PageInfo>, issued: set<Id>, r: Request) {
    r.Creating? || r.Inserting? ==> r.page in issued && (r.page in pages ==> pages[r.page].tenant == r.tenant)
  }

  ghost predicate SectionsPlaced(db: Database) {
    forall id :: id in db.sections ==> OnPage(db.pages, db.sections[id].parent, db.sections[id].tenant)
  }

  ghost predicate IdsIssued(s: State) {
    s.db.pages.Keys <= s.issued && s.db.sections.Keys <= s.issued && s.db.types.Keys <= s.issued
  }

  /** Every section lies on an existing page of its own tenant, and pending creates are about pages of their tenant. */
  ghost predicate Placed(s: State) {
    && IdsIssued(s)
    && SectionsPlaced(s.db)
    && forall q :: q in s.requests ==> RequestPlaced(s.db.pages, s.issued, s.requests[q])
  }

  /** Issued pages may go, but do not change tenant or come back. */
  ghost predicate PagesAdvance(s: State, t: State) {
    && s.issued <= t.issued
    && forall id :: id in t.db.pages && id in s.issued ==>
         id in s.db.pages && t.db.pages[id].tenant == s.db.pages[id].tenant
  }

  lemma AdvancingKeepsRequests(s: State, t: State)
    requires PagesAdvance(s, t)
    requires forall q :: q in s.requests ==> RequestPlaced(s.db.pages, s.issued, s.requests[q])
    requires forall q :: q in t.requests ==> q in s.requests && t.requests[q] == s.requests[q]
    ensures forall q :: q in t.requests ==> RequestPlaced(t.db.pages, t.issued, t.requests[q])
  {
    forall q | q in t.requests ensures RequestPlaced(t.db.pages, t.issued, t.requests[q]) {
      assert RequestPlaced(s.db.pages, s.issued, s.requests[q]);
    }
  }

  lemma PageStepPlaced(s: State, step: Step)
    requires Placed(s) && DirectEnabled(s, step)
    requires step.CreatePage? || step.UpdatePage? || step.DeletePage? || step.ReorderPages?
    ensures PagesAdvance(s, DirectNext(s, step)) && IdsIssued(DirectNext(s, step))
    ensures SectionsPlaced(DirectNext(s, step).db)
  {
    if step.ReorderPages? {
      forall id | id in step.pages ensures step.pages[id].tenant == s.db.pages[id].tenant {
        assert Targeted(s.db.pages, step.ids, step.parent, step.tenant, id) || step.pages[id] == s.db.pages[id];
      }
    }
  }

  lemma OtherStepPlaced(s: State, step: Step)
    requires Placed(s) && DirectEnabled(s, step)
    requires !(step.CreatePage? || step.UpdatePage? || step.DeletePage? || step.ReorderPages?)
    ensures PagesAdvance(s, DirectNext(s, step)) && IdsIssued(DirectNext(s, step))
    ensures SectionsPlaced(DirectNext(s, step).db)
  {
    if step.ReorderSections? {
      forall id | id in step.sections
        ensures step.sections[id].tenant == s.db.sections[id].tenant
        ensures step.sections[id].parent == s.db.sections[id].parent
      {
        assert Targeted(s.db.sections, step.ids, step.parent, step.tenant, id)
          || step.sections[id] == s.db.sections[id];
      }
    }
  }

  lemma EndStepPlaced(s: State, r: Request, step: Step)
    requires Placed(s) && Ends(step) && EndEnabled(s.db, s.issued, r, step) && RequestPlaced(s.db.pages, s.issued, r)
    ensures PagesAdvance(s, Ended(s, r, step)) && IdsIssued(Ended(s, r, step))
    ensures SectionsPlaced(Ended(s, r, step).db)
  {
  }

  lemma StepKeepsPlaced(s: State, step: Step)
    requires Placed(s) && Enabled(s, step)
    ensures Placed(Next(s, step))
  {
    if Begins(step) {
    } else if Reads(step) {
      assert RequestPlaced(s.db.pages, s.issued, s.requests[step.req]);
    } else if Ends(step) {
      var r := s.requests[step.req];
      assert RequestPlaced(s.db.pages, s.issued, r);
      EndStepPlaced(s, r, step);
      AdvancingKeepsRequests(s, Next(s, step));
    } else {
      if step.CreatePage? || step.UpdatePage? || step.DeletePage? || step.ReorderPages? {
        PageStepPlaced(s, step);
      } else {
        OtherStepPlaced(s, step);
      }
      AdvancingKeepsRequests(s, DirectNext(s, step));
    }
  }

  /** Over every run, failed queries included. */
  lemma {:induction false} RunKeepsPlaced(s: State, steps: seq<Step>, t: State)
    requires Placed(s) && Reaches(s, steps, t)
    ensures Placed(t)
    decreases |steps|
  {
    if steps != [] {
      StepKeepsPlaced(s, steps[0]);
      RunKeepsPlaced(Next(s, steps[0]), steps[1..], t);
    }
  }

  // ---- Isolation ----

  predicate Mine<T>(t: Table<T>, id: Id, tenant: Id) { id in t && t[id].tenant == tenant }

  predicate MyType(types: Types, id: Id, tenant: Id) { id in types && types[id].tenant == tenant }

  ghost predicate SameRowsFor<T>(t: Table<T>, u: Table<T>, tenant: Id) {
    forall id :: Mine(t, id, tenant) || Mine(u, id, tenant) ==> id in t && id in u && t[id] == u[id]
  }

  ghost predicate SameTypesFor(t: Types, u: Types, tenant: Id) {
    forall id :: MyType(t, id, tenant) || MyType(u, id, tenant) ==> id in t && id in u && t[id] == u[id]
  }

  /** Nothing of a tenant's content differs. */
  ghost predicate SameFor(a: Database, b: Database, tenant: Id) {
    && SameRowsFor(a.pages, b.pages, tenant)
    && SameRowsFor(a.sections, b.sections, tenant)
    && SameTypesFor(a.types, b.types, tenant)
  }

  predicate StatementFor(step: Step, tenant: Id) {
    match step
    case CreatePage(_, row) => row.tenant == tenant
    case UpdatePage(_, n, _) => n == tenant
    case DeletePage(_, n) => n == tenant
    case ReorderPages(_, n, _, _) => n == tenant
    case DeleteSection(_, n) => n == tenant
    case ReorderSections(_, n, _, _) => n == tenant
    case CreateType(_, n, _, _) => n == tenant
    case UpdateType(_, n, _) => n == tenant
    case _ => false
  }

  /** The step belongs to a request of the tenant. */
  predicate ActsFor(s: State, step: Step, tenant: Id) {
    if Begins(step) then step.tenant == tenant
    else if Reads(step) || Ends(step) then step.req in s.requests && s.requests[step.req].tenant == tenant
    else StatementFor(step, tenant)
  }

  /** ON DELETE CASCADE does not ask for the tenant; that it stays inside one is due to where sections lie. */
  lemma DeletePageIsolates(db: Database, id: Id, tenant: Id)
    requires SectionsPlaced(db) && id in db.pages && db.pages[id].tenant != tenant
    ensures SameFor(db, PageDeleted(db, id), tenant)
  {
    var after := PageDeleted(db, id);
    forall x | x in db.sections && db.sections[x].tenant == tenant ensures x in after.sections {
      assert OnPage(db.pages, db.sections[x].parent, tenant);
    }
  }

  lemma PageStepIsolates(s: State, step: Step, tenant: Id)
    requires Placed(s) && DirectEnabled(s, step) && !StatementFor(step, tenant)
    requires step.CreatePage? || step.UpdatePage? || step.DeletePage? || step.ReorderPages?
    ensures SameFor(s.db, DirectNext(s, step).db, tenant)
  {
    if step.DeletePage? {
      if step.id in s.db.pages && s.db.pages[step.id].tenant == step.tenant {
        DeletePageIsolates(s.db, step.id, tenant);
      }
    } else {
      if step.ReorderPages? {
        forall id | id in s.db.pages && (s.db.pages[id].tenant == tenant || step.pages[id].tenant == tenant)
          ensures step.pages[id] == s.db.pages[id]
        {
          assert Targeted(s.db.pages, step.ids, step.parent, step.tenant, id) || step.pages[id] == s.db.pages[id];
        }
      }
    }
  }

  lemma SectionStepIsolates(s: State, step: Step, tenant: Id)
    requires Placed(s) && DirectEnabled(s, step) && !StatementFor(step, tenant)
    requires step.DeleteSection? || step.ReorderSections?
    ensures SameFor(s.db, DirectNext(s, step).db, tenant)
  {
    if step.ReorderSections? {
      forall id | id in s.db.sections && (s.db.sections[id].tenant == tenant || step.sections[id].tenant == tenant)
        ensures step.sections[id] == s.db.sections[id]
      {
        assert Targeted(s.db.sections, step.ids, step.parent, step.tenant, id)
          || step.sections[id] == s.db.sections[id];
      }
    }
  }

  lemma TypeStepIsolates(s: State, step: Step, tenant: Id)
    requires Placed(s) && DirectEnabled(s, step) && !StatementFor(step, tenant)
    requires step.CreateType? || step.UpdateType? || step.EditWebsites? || step.EditMedia?
    ensures SameFor(s.db, DirectNext(s, step).db, tenant)
  {
  }

  lemma EndStepIsolates(s: State, r: Request, step: Step, tenant: Id)
    requires Placed(s) && Ends(step) && EndEnabled(s.db, s.issued, r, step) && r.tenant != tenant
    ensures SameFor(s.db, Ended(s, r, step).db, tenant)
  {
  }

  lemma StepIsolates(s: State, step: Step, tenant: Id)
    requires Placed(s) && Enabled(s, step) && !ActsFor(s, step, tenant)
    ensures SameFor(s.db, Next(s, step).db, tenant)
  {
    if Begins(step) || Reads(step) {
    } else if Ends(step) {
      EndStepIsolates(s, s.requests[step.req], step, tenant);
    } else if step.CreatePage? || step.UpdatePage? || step.DeletePage? || step.ReorderPages? {
      PageStepIsolates(s, step, tenant);
    } else if step.DeleteSection? || step.ReorderSections? {
      SectionStepIsolates(s, step, tenant);
    } else {
      TypeStepIsolates(s, step, tenant);
    }
  }

  /** A run in which the tenant does nothing. */
  ghost predicate OthersReach(s: State, steps: seq<Step>, t: State, tenant: Id)
    decreases |steps|
  {
    if steps == [] then s == t
    else
      && Enabled(s, steps[0]) && !ActsFor(s, steps[0], tenant)
      && OthersReach(Next(s, steps[0]), steps[1..], t, tenant)
  }

  /** Whatever other tenants do, and however it interleaves, a tenant's pages, sections and block types stay as they
      are. */
  lemma {:induction false} TenantsAreIsolated(s: State, steps: seq<Step>, t: State, tenant: Id)
    requires Placed(s) && OthersReach(s, steps, t, tenant)
    ensures SameFor(s.db, t.db, tenant)
    decreases |steps|
  {
    if steps != [] {
      StepKeepsPlaced(s, steps[0]);
      StepIsolates(s, steps[0], tenant);
      TenantsAreIsolated(Next(s, steps[0]), steps[1..], t, tenant);
    }
  }

  lemma InitialIsPlaced()
    ensures Placed(Initial())
  {
  }
}
