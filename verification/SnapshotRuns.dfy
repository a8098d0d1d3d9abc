/** The snapshots of one state of the store are among those the state machine of ContentProtocol returns
    (internal/publish/snapshot.go). */
module SnapshotRuns {
  import opened Results
  import opened Snapshots
  import opened Ordered
  import opened Content
  import opened ContentProtocol
  import opened SiteProperties
  import opened SnapshotBuilder
  import opened HandlerRuns

  /** The snapshot request after its first i pages. */
  function Halfway(db: Database, tenant: Id, ids: seq<Id>, snap: Snapshot, i: nat): Request
    requires (forall id :: id in ids ==> id in db.pages) && i <= |ids| == |snap.pages|
  {
    Collecting(tenant, snap.blockTypes, snap.website, PageRefs(db.pages, ids)[i..], snap.pages[..i])
  }

  /** The sections query of page i, on the request alone. */
  lemma PageRead(db: Database, tenant: Id, ids: seq<Id>, snap: Snapshot, i: nat, found: seq<Id>, step: Step)
    requires ArePagesOf(db, tenant, ids, snap.pages) && i < |ids|
    requires forall id :: id in ids ==> id in db.pages
    requires IsVisibleListing(db.sections, ids[i], tenant, found)
    requires snap.pages[i].sections == SectionData(db.sections, found)
    requires step.ReadSections? && step.ids == found
    ensures ReadEnabled(db, Halfway(db, tenant, ids, snap, i), step)
    ensures Onward(db, Halfway(db, tenant, ids, snap, i), step) == Some(Halfway(db, tenant, ids, snap, i + 1))
  {
    var refs := PageRefs(db.pages, ids);
    assert refs[i..][0] == refs[i] && refs[i..][1..] == refs[i + 1..];
    assert IsPageOf(db, tenant, ids[i], snap.pages[i]);
    assert refs[i].page.(sections := SectionData(db.sections, found)) == snap.pages[i];
    assert snap.pages[..i] + [snap.pages[i]] == snap.pages[..i + 1];
  }

  /** One query of a request that goes on. */
  lemma QueryLeads(s: State, req: Id, r: Request, step: Step, r': Request)
    requires Leads(s, Alone(s, req, r)) && Reads(step) && step.req == req
    requires ReadEnabled(s.db, r, step) && Onward(s.db, r, step) == Some(r')
    ensures Leads(s, Alone(s, req, r'))
  {
    var mid := Alone(s, req, r);
    assert mid.requests[req] == r && mid.requests[req := r'] == map[req := r'];
    assert Next(mid, step).requests == map[req := r'];
    LeadsOn(s, mid, step, Alone(s, req, r'));
  }

  lemma NextPage(s: State, req: Id, tenant: Id, ids: seq<Id>, snap: Snapshot, i: nat)
    requires ArePagesOf(s.db, tenant, ids, snap.pages) && i < |ids|
    requires forall id :: id in ids ==> id in s.db.pages
    requires Leads(s, Alone(s, req, Halfway(s.db, tenant, ids, snap, i)))
    ensures Leads(s, Alone(s, req, Halfway(s.db, tenant, ids, snap, i + 1)))
  {
    assert IsPageOf(s.db, tenant, ids[i], snap.pages[i]);
    var found :| IsVisibleListing(s.db.sections, ids[i], tenant, found)
      && snap.pages[i].sections == SectionData(s.db.sections, found);
    var step := ReadSections(req, found);
    PageRead(s.db, tenant, ids, snap, i, found, step);
    QueryLeads(
      s, req, Halfway(s.db, tenant, ids, snap, i), step, Halfway(s.db, tenant, ids, snap, i + 1));
  }

  lemma {:induction false} AllPages(s: State, req: Id, tenant: Id, ids: seq<Id>, snap: Snapshot, i: nat)
    requires ArePagesOf(s.db, tenant, ids, snap.pages) && i <= |ids|
    requires forall id :: id in ids ==> id in s.db.pages
    requires Leads(s, Alone(s, req, Halfway(s.db, tenant, ids, snap, i)))
    ensures Leads(s, Alone(s, req, Halfway(s.db, tenant, ids, snap, |ids|)))
    decreases |ids| - i
  {
    if i < |ids| {
      NextPage(s, req, tenant, ids, snap, i);
      AllPages(s, req, tenant, ids, snap, i + 1);
    }
  }

  lemma FirstQueries(s: State, req: Id, tenant: Id, website: Id, ids: seq<Id>, snap: Snapshot)
    requires req !in s.requests && req !in s.returned && s.requests == map[]
    requires website in s.db.websites && s.db.websites[website].tenant == tenant
    requires snap.website == s.db.websites[website].website
    requires IsActiveBlocks(s.db.types, tenant, snap.blockTypes)
    requires IsVisibleListing(s.db.pages, website, tenant, ids) && ArePagesOf(s.db, tenant, ids, snap.pages)
    ensures forall id :: id in ids ==> id in s.db.pages
    ensures Leads(s, Alone(s, req, Halfway(s.db, tenant, ids, snap, 0)))
  {
    var r1 := Gathering(tenant, website, snap.blockTypes);
    var r2 := Paging(tenant, website, snap.blockTypes, snap.website);
    LeadsNowhere(s);
    LeadsOn(s, s, BeginSnapshot(req, tenant, website, snap.blockTypes), Alone(s, req, r1));
    QueryLeads(s, req, r1, ReadWebsite(req), r2);
    assert PageRefs(s.db.pages, ids)[0..] == PageRefs(s.db.pages, ids) && snap.pages[..0] == [];
    QueryLeads(s, req, r2, ReadPages(req, ids), Halfway(s.db, tenant, ids, snap, 0));
  }

  function Answered(s: State, req: Id, tenant: Id, snap: Snapshot): State {
    s.(returned := s.returned[req := Returned(tenant, TenantMedia(s.db.media, tenant), snap)])
  }

  /** The ids the media query is given. */
  ghost predicate CastsTo(cast: map<string, Id>, uuidOf: string -> Option<Id>, images: set<string>) {
    cast.Keys == images && forall image :: image in images ==> uuidOf(image) == Some(cast[image])
  }

  lemma SameMedia(snap: Snapshot, table: MediaTable, cast: map<string, Id>, uuidOf: string -> Option<Id>)
    requires CastsTo(cast, uuidOf, Images(snap))
    requires snap.media ==
             map id | id in table && (exists image :: image in Images(snap) && uuidOf(image) == Some(id)) :: table[id]
    ensures SnapshotWith(snap.website, snap.pages, snap.blockTypes, table, cast) == snap
  {
    forall id ensures id in cast.Values <==> exists image :: image in Images(snap) && uuidOf(image) == Some(id) {
      if image :| image in Images(snap) && uuidOf(image) == Some(id) {
        assert cast[image] == id;
      }
    }
  }

  lemma LastQuery(s: State, req: Id, tenant: Id, ids: seq<Id>, snap: Snapshot, cast: map<string, Id>)
    requires s.requests == map[] && (forall id :: id in ids ==> id in s.db.pages) && |ids| == |snap.pages|
    requires IsCast(cast, SiteImages(snap.website, snap.pages, snap.blockTypes), s.db.media)
    requires var table := TenantMedia(s.db.media, tenant);
             SnapshotWith(snap.website, snap.pages, snap.blockTypes, table, cast) == snap
    requires Leads(s, Alone(s, req, Halfway(s.db, tenant, ids, snap, |ids|)))
    ensures Leads(s, Answered(s, req, tenant, snap))
  {
    var r := Collecting(tenant, snap.blockTypes, snap.website, [], snap.pages);
    assert Halfway(s.db, tenant, ids, snap, |ids|) == r by {
      assert snap.pages[..|ids|] == snap.pages;
      assert PageRefs(s.db.pages, ids)[|ids|..] == [];
    }
    AnswerLeads(s, req, r, cast, snap);
  }

  lemma AnswerLeads(s: State, req: Id, r: Request, cast: map<string, Id>, snap: Snapshot)
    requires Leads(s, Alone(s, req, r)) && s.requests == map[]
    requires r.Collecting? && EndEnabled(s.db, s.issued, r, ReadMedia(req, cast))
    requires SnapshotWith(r.site, r.pages, r.blocks, TenantMedia(s.db.media, r.tenant), cast) == snap
    ensures Leads(s, Answered(s, req, r.tenant, snap))
  {
    assert Alone(s, req, r).requests - {req} == s.requests;
    LeadsOn(s, Alone(s, req, r), ReadMedia(req, cast), Answered(s, req, r.tenant, snap));
  }

  /** With nothing in between, the queries of BuildSnapshot return any snapshot of the store as it is. */
  lemma SnapshotIsReturned(
    db: Database, issued: set<Id>, req: Id, tenant: Id, website: Id, uuidOf: string -> Option<Id>, snap: Snapshot)
    requires IsSnapshotOf(db, tenant, website, uuidOf, snap) && forall id :: id in db.media ==> uuidOf(id) == Some(id)
    ensures Leads(Idle(db, issued), Answered(Idle(db, issued), req, tenant, snap))
  {
    var s := Idle(db, issued);
    var ids :| IsVisibleListing(db.pages, website, tenant, ids) && ArePagesOf(db, tenant, ids, snap.pages);
    FirstQueries(s, req, tenant, website, ids, snap);
    AllPages(s, req, tenant, ids, snap, 0);
    var cast := map image | image in Images(snap) :: uuidOf(image).value;
    SameMedia(snap, TenantMedia(db.media, tenant), cast, uuidOf);
    LastQuery(s, req, tenant, ids, snap, cast);
  }
}
