/** When an archived block type is gone for good (internal/httpapi/handlers_sectiontypes.go). */
module Retirement {
  import opened Ids
  import opened Ordered
  import opened Content
  import opened ContentProtocol
  import opened ContentInvariant

  /** A create that has read the schema and whose insert will succeed. */
  predicate AboutToUse(pages: Table<PageInfo>, r: Request, tenant: Id, key: string) {
    r.Inserting? && r.tenant == tenant && r.key == key && r.page in pages
  }

  ghost predicate NoneAboutToUse(s: State, tenant: Id, key: string) {
    forall q :: q in s.requests ==> !AboutToUse(s.db.pages, s.requests[q], tenant, key)
  }

  /** Archived, not used, and nobody is about to use it. */
  ghost predicate Retired(s: State, tenant: Id, key: string) {
    && HasType(s.db.types, tenant, key) && !ActiveType(s.db.types, tenant, key)
    && !InUse(s.db.sections, tenant, key)
    && NoneAboutToUse(s, tenant, key)
  }

  lemma AdvancingKeepsRetired(s: State, t: State, tenant: Id, key: string)
    requires Sound(s) && Advances(s, t) && Retired(s, tenant, key)
    requires forall id :: id in t.db.sections && id !in s.issued ==>
               !(t.db.sections[id].tenant == tenant && t.db.sections[id].data.blockType == key)
    requires forall id :: id in t.db.pages && id in s.issued ==> id in s.db.pages
    requires forall q :: q in t.requests ==> q in s.requests && t.requests[q] == s.requests[q]
    ensures Retired(t, tenant, key)
  {
    TypeStays(s.db.types, t.db.types, tenant, key);
    forall q | q in t.requests ensures !AboutToUse(t.db.pages, t.requests[q], tenant, key) {
      assert RequestOk(s.db.types, s.db.sections, s.issued, s.requests[q]);
      assert !AboutToUse(s.db.pages, s.requests[q], tenant, key);
    }
  }

  /** Statements of one step insert no section, and pages only under new ids. */
  lemma DirectStepRows(s: State, step: Step)
    requires DirectEnabled(s, step)
    ensures DirectNext(s, step).db.sections.Keys <= s.db.sections.Keys
    ensures forall id :: id in DirectNext(s, step).db.pages && id in s.issued ==> id in s.db.pages
  {
  }

  lemma DirectStepKeepsRetired(s: State, step: Step, tenant: Id, key: string)
    requires Sound(s) && DirectEnabled(s, step) && Retired(s, tenant, key)
    ensures Retired(DirectNext(s, step), tenant, key)
  {
    DirectStepAdvances(s, step);
    DirectStepRows(s, step);
    AdvancingKeepsRetired(s, DirectNext(s, step), tenant, key);
  }

  lemma EndStepKeepsRetired(s: State, step: Step, tenant: Id, key: string)
    requires Sound(s) && Enabled(s, step) && Ends(step) && Retired(s, tenant, key)
    ensures Retired(Next(s, step), tenant, key)
  {
    var r := s.requests[step.req];
    assert RequestOk(s.db.types, s.db.sections, s.issued, r);
    assert !AboutToUse(s.db.pages, r, tenant, key);
    EndAdvances(s, r, step);
    AdvancingKeepsRetired(s, Ended(s, r, step), tenant, key);
    assert forall q :: q in Next(s, step).requests ==> q in s.requests;
  }

  /** Only a schema read turns a create into one that is about to insert, and only for an active type. */
  lemma ReadStepKeepsRetired(s: State, step: Step, tenant: Id, key: string)
    requires Enabled(s, step) && Reads(step) && Retired(s, tenant, key)
    ensures Retired(Next(s, step), tenant, key)
  {
    var onward := Onward(s.db, s.requests[step.req], step);
    assert onward.Some? ==> !AboutToUse(s.db.pages, onward.value, tenant, key);
  }

  lemma StepKeepsRetired(s: State, step: Step, tenant: Id, key: string)
    requires Sound(s) && Enabled(s, step) && Retired(s, tenant, key)
    ensures Retired(Next(s, step), tenant, key)
  {
    if Begins(step) {
    } else if Reads(step) {
      ReadStepKeepsRetired(s, step, tenant, key);
    } else if Ends(step) {
      EndStepKeepsRetired(s, step, tenant, key);
    } else {
      DirectStepKeepsRetired(s, step, tenant, key);
    }
  }

  /** A retired type is never used again, whatever runs. */
  lemma {:induction false} RunKeepsRetired(s: State, steps: seq<Step>, t: State, tenant: Id, key: string)
    requires Sound(s) && Retired(s, tenant, key) && CleanlyReaches(s, steps, t)
    ensures Retired(t, tenant, key)
    decreases |steps|
  {
    if steps != [] {
      StepKeepsSound(s, steps[0]);
      StepKeepsRetired(s, steps[0], tenant, key);
      RunKeepsRetired(Next(s, steps[0]), steps[1..], t, tenant, key);
    }
  }

  // ---- The update of the archive handler ----

  ghost predicate NeverUsed(s: State, tenant: Id, key: string) {
    forall steps, t :: CleanlyReaches(s, steps, t) ==> !InUse(t.db.sections, tenant, key)
  }

  lemma RetiredIsNeverUsed(s: State, tenant: Id, key: string)
    requires Sound(s) && Retired(s, tenant, key)
    ensures NeverUsed(s, tenant, key)
  {
    forall steps, t | CleanlyReaches(s, steps, t) ensures !InUse(t.db.sections, tenant, key) {
      RunKeepsRetired(s, steps, t, tenant, key);
    }
  }

  lemma InUseIsUsed(s: State, tenant: Id, key: string)
    requires InUse(s.db.sections, tenant, key)
    ensures !NeverUsed(s, tenant, key)
  {
    assert CleanlyReaches(s, [], s);
  }

  /** A pending insert can land right away. */
  lemma PendingInsertIsUsed(s: State, q: Id, tenant: Id, key: string)
    requires q in s.requests && AboutToUse(s.db.pages, s.requests[q], tenant, key)
    ensures !NeverUsed(s, tenant, key)
  {
    var newID := FreshId(s.issued);
    var order := NextOrderExists(s.db.sections, s.requests[q].page);
    var step := InsertSection(q, newID, order, 0);
    var t := Next(s, step);
    assert [step][1..] == [] && CleanlyReaches(t, [], t);
    assert CleanlyReaches(s, [step], t);
    assert t.db.sections[newID].tenant == tenant && t.db.sections[newID].data.blockType == key;
    assert InUse(t.db.sections, tenant, key);
  }

  /** The archive keeps its promise, that no section will ever refer to the type, exactly when at the time of its
      update no section uses the type and no create of one is about to insert. */
  lemma ArchiveRetires(s: State, req: Id, key: string)
    requires Sound(s) && Enabled(s, Archive(req))
    requires key == s.db.types[s.requests[req].id].key
    ensures NeverUsed(Next(s, Archive(req)), s.requests[req].tenant, key) <==>
            !InUse(s.db.sections, s.requests[req].tenant, key) && NoneAboutToUse(s, s.requests[req].tenant, key)
  {
    var r := s.requests[req];
    assert RequestOk(s.db.types, s.db.sections, s.issued, r);
    var t := Next(s, Archive(req));
    StepKeepsSound(s, Archive(req));
    if InUse(s.db.sections, r.tenant, key) {
      InUseIsUsed(t, r.tenant, key);
    } else if q :| q in s.requests && AboutToUse(s.db.pages, s.requests[q], r.tenant, key) {
      assert q != req && t.requests[q] == s.requests[q];
      PendingInsertIsUsed(t, q, r.tenant, key);
    } else {
      ArchivedIsRetired(s, req, key);
      RetiredIsNeverUsed(t, r.tenant, key);
    }
  }

  lemma ArchivedIsRetired(s: State, req: Id, key: string)
    requires Sound(s) && Enabled(s, Archive(req)) && key == s.db.types[s.requests[req].id].key
    requires !InUse(s.db.sections, s.requests[req].tenant, key) && NoneAboutToUse(s, s.requests[req].tenant, key)
    ensures Retired(Next(s, Archive(req)), s.requests[req].tenant, key)
  {
    var r := s.requests[req];
    assert RequestOk(s.db.types, s.db.sections, s.issued, r);
    var u := TypeArchived(s.db.types, r.id, r.tenant);
    ArchiveTypeAdvances(s.db.types, r.id, r.tenant);
    assert IsType(u, r.id, r.tenant, key);
    forall id | id in u && IsType(u, id, r.tenant, key) ensures !u[id].active {
      assert id == r.id;
    }
  }
}
