/** What is on disk during and after publishes, and what a rollback restores (internal/publish/publisher.go). */
module PublishSafety {
  import opened Results
  import opened Snapshots
  import opened Site
  import opened Cache
  import opened PublishProtocol
  import opened PublishExclusion
  import opened PublishLifecycle

  type SnapshotTable = map<Id, SnapshotRow>

  /** The complete site of a snapshot, as served under a website's base path. */
  ghost predicate FullSite(snap: Snapshot, website: Id, year: int, files: Files) {
    Buildable(snap) && files == Generated(snap, "/sites/" + website, year)
  }

  ghost predicate PublishedFrom(snapshots: SnapshotTable, snapshot: Id, website: Id, year: int, files: Files) {
    snapshot in snapshots && FullSite(snapshots[snapshot].content, website, year, files)
  }

  /** No site yet, or the complete site of some stored snapshot. */
  ghost predicate WholeSite(snapshots: SnapshotTable, website: Id, site: Option<Files>) {
    site.None? || exists snapshot, year :: PublishedFrom(snapshots, snapshot, website, year, site.value)
  }

  /** A snapshot row is written once. */
  ghost predicate Kept(snapshots: SnapshotTable, later: SnapshotTable) {
    forall id :: id in snapshots ==> id in later && later[id] == snapshots[id]
  }

  // ---- The view of one holder ----

  ghost predicate HasSnapshot(snapshots: SnapshotTable, h: Holder, snap: Snapshot) {
    h.snapshot in snapshots && snapshots[h.snapshot].content == snap
  }

  /** The directory as this holder left it: untouched, partly written, or complete. */
  ghost predicate SiteOk(disk: SiteStore, snapshots: SnapshotTable, id: Id, h: Holder) {
    && (id in disk.products <==> h.built.Some?)
    && match h.pc
       case Loaded(snap) => HasSnapshot(snapshots, h, snap) && Untouched(disk, h)
       case TempBuilt(snap) => HasSnapshot(snapshots, h, snap) && Buildable(snap) && Untouched(disk, h)
       case Writing(snap, year, done) =>
         && HasSnapshot(snapshots, h, snap)
         && Buildable(snap)
         && h.built.None?
         && Writes(snap, BasePath(h.website), year).Ok?
         && PartlyWritten(disk, h.website, Writes(snap, BasePath(h.website), year).value, done)
       case SiteBuilt => WhollyBuilt(disk, snapshots, id, h)
       case Pushing => WhollyBuilt(disk, snapshots, id, h)
       case Pushed => WhollyBuilt(disk, snapshots, id, h)
       case Failing => Untouched(disk, h) || WhollyBuilt(disk, snapshots, id, h)
       case Closing => Untouched(disk, h) || WhollyBuilt(disk, snapshots, id, h)
       case _ => Untouched(disk, h)
  }

  ghost predicate Untouched(disk: SiteStore, h: Holder) {
    h.built.None? && SiteAt(disk, h.website) == h.before
  }

  ghost predicate PartlyWritten(disk: SiteStore, website: Id, writes: seq<Write>, done: nat) {
    done <= |writes| && SiteAt(disk, website) == Some(Stored(writes[..done]))
  }

  ghost predicate WhollyBuilt(disk: SiteStore, snapshots: SnapshotTable, id: Id, h: Holder) {
    && h.built.Some?
    && SiteAt(disk, h.website).Some?
    && PublishedFrom(snapshots, h.snapshot, h.website, h.built.value, disk.sites[h.website])
    && id in disk.products
    && disk.products[id] == Product(h.built.value, disk.sites[h.website])
  }

  // ---- One action of a worker ----

  lemma AttemptOfBuildable(snap: Snapshot, basePath: string, year: int)
    ensures Complete(Attempted(snap, basePath, year)) <==> Buildable(snap)
    ensures Buildable(snap) ==>
              && Writes(snap, basePath, year).Ok?
              && Attempted(snap, basePath, year) == Attempt(Writes(snap, basePath, year).value, true)
              && Generated(snap, basePath, year) == Stored(Writes(snap, basePath, year).value)
  {
    BuildsIffBuildable(snap, basePath, year);
  }

  lemma FileKeepsSite(disk: SiteStore, id: Id, h: Holder, writes: seq<Write>)
    requires h.pc.Writing? && PartlyWritten(disk, h.website, writes, h.pc.done) && h.pc.done < |writes|
    ensures var after := StoreAfter(disk, id, h, Attempt(writes, true));
            PartlyWritten(after, h.website, writes, h.pc.done + 1) && after.products == disk.products
  {
    var before, write := writes[..h.pc.done], writes[h.pc.done];
    assert writes[..h.pc.done + 1] == before + [write];
    StoredAppend(before, write);
  }

  lemma WritingKeepsSite(disk: SiteStore, snapshots: SnapshotTable, id: Id, h: Holder, year: int, writes: seq<Write>)
    requires SiteOk(disk, snapshots, id, h) && h.pc.Writing?
    requires Writes(h.pc.snap, BasePath(h.website), h.pc.year).value == writes
    requires Generated(h.pc.snap, BasePath(h.website), h.pc.year) == Stored(writes)
    ensures var build := Attempt(writes, true);
            SiteOk(StoreAfter(disk, id, h, build), snapshots, id, HolderAfter(h, snapshots, true, true, year, build))
  {
    if h.pc.done < |writes| {
      FileKeepsSite(disk, id, h, writes);
    } else {
      assert writes[..h.pc.done] == writes;
    }
  }

  lemma SiteClearedOk(
    disk: SiteStore, snapshots: SnapshotTable, id: Id, h: Holder, github: bool, ok: bool, year: int, build: Attempt)
    requires SiteOk(disk, snapshots, id, h) && h.pc.TempBuilt?
    requires Writes(h.pc.snap, BasePath(h.website), year).Ok? && !build.Refused?
    ensures SiteOk(StoreAfter(disk, id, h, build), snapshots, id, HolderAfter(h, snapshots, github, ok, year, build))
    ensures HolderAfter(h, snapshots, github, ok, year, build).pc.Writing?
  {
  }

  lemma TempBuildOk(
    disk: SiteStore, snapshots: SnapshotTable, id: Id, h: Holder, github: bool, ok: bool, year: int, build: Attempt)
    requires SiteOk(disk, snapshots, id, h) && h.pc.Loaded? && (Complete(build) ==> Buildable(h.pc.snap))
    ensures SiteOk(StoreAfter(disk, id, h, build), snapshots, id, HolderAfter(h, snapshots, github, ok, year, build))
  {
  }

  lemma OtherActionOk(
    disk: SiteStore, snapshots: SnapshotTable, id: Id, h: Holder, github: bool, ok: bool, year: int)
    requires SiteOk(disk, snapshots, id, h)
    requires h.pc.Started? || h.pc.Loading? || h.pc.SiteBuilt? || h.pc.Pushing? || h.pc.Pushed? || h.pc.Failing?
    ensures var h' := HolderAfter(h, snapshots, github, ok, year, Refused);
            SiteOk(StoreAfter(disk, id, h, Refused), snapshots, id, h')
  {
  }

  /** A worker keeps its view; after a temp build succeeded, the site build always runs to completion. */
  lemma ActionKeepsSite(
    disk: SiteStore, snapshots: SnapshotTable, id: Id, h: Holder, github: bool, ok: bool, year: int)
    requires SiteOk(disk, snapshots, id, h) && !h.pc.Locked? && !h.pc.Closing?
    ensures var build := BuildFor(h, year);
            SiteOk(StoreAfter(disk, id, h, build), snapshots, id, HolderAfter(h, snapshots, github, ok, year, build))
  {
    if h.pc.Writing? {
      AttemptOfBuildable(h.pc.snap, BasePath(h.website), h.pc.year);
      WritingKeepsSite(disk, snapshots, id, h, year, Writes(h.pc.snap, BasePath(h.website), h.pc.year).value);
    } else if h.pc.TempBuilt? {
      AttemptOfBuildable(h.pc.snap, BasePath(h.website), year);
      SiteClearedOk(disk, snapshots, id, h, github, ok, year, BuildFor(h, year));
    } else if h.pc.Loaded? {
      AttemptOfBuildable(h.pc.snap, "", year);
      TempBuildOk(disk, snapshots, id, h, github, ok, year, BuildFor(h, year));
    } else {
      OtherActionOk(disk, snapshots, id, h, github, ok, year);
    }
  }

  lemma ActionKeepsOtherSites(disk: SiteStore, id: Id, h: Holder, build: Attempt)
    ensures var after := StoreAfter(disk, id, h, build);
            && (forall website :: website != h.website ==> SiteAt(after, website) == SiteAt(disk, website))
            && (forall other :: other != id ==>
                  && (other in after.products <==> other in disk.products)
                  && (other in disk.products ==> after.products[other] == disk.products[other]))
            && (!h.pc.Writing? ==> after.products == disk.products)
  {
  }

  // ---- The invariant ----

  /** What a succeeded deployment produced is the complete site of its snapshot. */
  ghost predicate ProductOk(disk: SiteStore, snapshots: SnapshotTable, id: Id, row: Deployment) {
    row.status.Succeeded? ==>
      && id in disk.products
      && PublishedFrom(snapshots, row.snapshot, row.website, disk.products[id].year, disk.products[id].files)
  }

  ghost predicate SiteInv(s: State) {
    && (forall id :: id in s.holders ==> SiteOk(s.disk, s.snapshots, id, s.holders[id]))
    && (forall id :: id in s.holders ==> WholeSite(s.snapshots, s.holders[id].website, s.holders[id].before))
    && (forall website :: !HasHolder(s, website) ==> WholeSite(s.snapshots, website, SiteAt(s.disk, website)))
    && (forall id :: id in s.rows.deployments ==> ProductOk(s.disk, s.snapshots, id, s.rows.deployments[id]))
    && s.disk.products.Keys <= s.issued
  }

  ghost predicate Safe(s: State) { LockInv(s) && LifeInv(s) && SiteInv(s) }

  lemma KeptSite(disk: SiteStore, snapshots: SnapshotTable, later: SnapshotTable, id: Id, h: Holder)
    requires Kept(snapshots, later) && SiteOk(disk, snapshots, id, h)
    ensures SiteOk(disk, later, id, h)
  {
  }

  lemma KeptWhole(snapshots: SnapshotTable, later: SnapshotTable, website: Id, site: Option<Files>)
    requires Kept(snapshots, later) && WholeSite(snapshots, website, site)
    ensures WholeSite(later, website, site)
  {
    if site.Some? {
      var snapshot, year :| PublishedFrom(snapshots, snapshot, website, year, site.value);
      assert PublishedFrom(later, snapshot, website, year, site.value);
    }
  }

  lemma SnapshotKeepsSites(s: State, t: State)
    requires SiteInv(s) && Kept(s.snapshots, t.snapshots)
    requires t.disk == s.disk && t.holders == s.holders && t.rows == s.rows && t.issued == s.issued
    ensures SiteInv(t)
  {
    forall id | id in t.holders
      ensures SiteOk(t.disk, t.snapshots, id, t.holders[id])
      ensures WholeSite(t.snapshots, t.holders[id].website, t.holders[id].before)
    {
      KeptSite(s.disk, s.snapshots, t.snapshots, id, s.holders[id]);
      KeptWhole(s.snapshots, t.snapshots, s.holders[id].website, s.holders[id].before);
    }
    forall website | !HasHolder(t, website) ensures WholeSite(t.snapshots, website, SiteAt(t.disk, website)) {
      assert !HasHolder(s, website);
      KeptWhole(s.snapshots, t.snapshots, website, SiteAt(s.disk, website));
    }
    forall id | id in t.rows.deployments ensures ProductOk(t.disk, t.snapshots, id, t.rows.deployments[id]) {
      assert ProductOk(s.disk, s.snapshots, id, s.rows.deployments[id]);
    }
  }

  lemma NewHolderKeepsSites(s: State, t: State, newID: Id, h: Holder)
    requires SiteInv(s) && Unused(s, newID) && s.holders.Keys <= s.issued && !HasHolder(s, h.website)
    requires t.holders == s.holders[newID := h] && t.issued == s.issued + {newID}
    requires t.disk == s.disk && t.snapshots == s.snapshots && t.rows == s.rows
    requires h.pc.Locked? && h.built.None? && h.before == SiteAt(s.disk, h.website)
    ensures SiteInv(t)
  {
    forall id | id in t.holders
      ensures SiteOk(t.disk, t.snapshots, id, t.holders[id])
      ensures WholeSite(t.snapshots, t.holders[id].website, t.holders[id].before)
    {
      if id != newID {
        assert SiteOk(s.disk, s.snapshots, id, s.holders[id]);
      }
    }
    forall website | !HasHolder(t, website) ensures !HasHolder(s, website) {
      forall id | id in s.holders ensures s.holders[id].website != website {
        assert id in t.holders && t.holders[id] == s.holders[id];
      }
    }
  }

  lemma LockKeepsSites(s: State, newID: Id, website: Id, snapshot: Id)
    requires Safe(s) && Timely(s) && Unused(s, newID)
    ensures SiteInv(LockTaken(s, newID, website, snapshot))
  {
    var t := LockTaken(s, newID, website, snapshot);
    if Live(s.cache, LockKey(website), s.now).Some? {
      SnapshotKeepsSites(s, t);
    } else {
      assert !HasHolder(s, website) by {
        assert forall id :: id in s.holders && s.holders[id].website == website ==> LockKey(website) in s.cache;
      }
      NewHolderKeepsSites(s, t, newID, Holder(website, snapshot, s.now, Locked, SiteAt(s.disk, website), None));
    }
  }

  /** A holder that leaves its website's directory untouched or complete may go. */
  lemma ReleaseKeepsSites(s: State, id: Id)
    requires Safe(s) && id in s.holders && (s.holders[id].pc.Closing? || s.holders[id].pc.Locked?)
    ensures SiteInv(Released(s, id))
  {
    var t, h := Released(s, id), s.holders[id];
    assert SiteOk(s.disk, s.snapshots, id, h);
    forall website | !HasHolder(t, website) ensures WholeSite(t.snapshots, website, SiteAt(t.disk, website)) {
      if website == h.website {
        if WhollyBuilt(s.disk, s.snapshots, id, h) {
          assert PublishedFrom(s.snapshots, h.snapshot, website, h.built.value, s.disk.sites[website]);
        }
      } else {
        assert !HasHolder(s, website) by {
          forall other | other in s.holders ensures s.holders[other].website != website {
            assert other != id ==> other in t.holders && t.holders[other] == s.holders[other];
          }
        }
      }
    }
  }

  /** A holder's own step: other websites, products and rows are left alone. */
  lemma OwnSiteOnly(s: State, t: State, id: Id)
    requires Safe(s) && id in s.holders && id in t.holders
    requires t.holders == s.holders[id := t.holders[id]] && t.snapshots == s.snapshots && t.issued == s.issued
    requires t.holders[id].website == s.holders[id].website && t.holders[id].before == s.holders[id].before
    requires forall website :: website != s.holders[id].website ==> SiteAt(t.disk, website) == SiteAt(s.disk, website)
    requires forall other :: other != id ==>
               && (other in t.disk.products <==> other in s.disk.products)
               && (other in s.disk.products ==> t.disk.products[other] == s.disk.products[other])
               && SameRow(s.rows, t.rows, other)
    requires SiteOk(t.disk, t.snapshots, id, t.holders[id])
    requires id in t.rows.deployments ==> ProductOk(t.disk, t.snapshots, id, t.rows.deployments[id])
    ensures SiteInv(t)
  {
    forall other | other in t.holders ensures SiteOk(t.disk, t.snapshots, other, t.holders[other]) {
      if other != id {
        assert s.holders[other].website != s.holders[id].website;
        SiteOkElsewhere(s.disk, t.disk, s.snapshots, other, s.holders[other]);
      }
    }
    forall website | !HasHolder(t, website) ensures WholeSite(t.snapshots, website, SiteAt(t.disk, website)) {
      assert website != t.holders[id].website;
      assert !HasHolder(s, website) by {
        assert forall other :: other in s.holders ==>
            other in t.holders && t.holders[other].website == s.holders[other].website;
      }
    }
    forall other | other in t.rows.deployments ensures ProductOk(t.disk, t.snapshots, other, t.rows.deployments[other]) {
      if other != id {
        assert SameRow(s.rows, t.rows, other);
        assert ProductOk(s.disk, s.snapshots, other, s.rows.deployments[other]);
      }
    }
  }

  lemma SiteOkElsewhere(disk: SiteStore, disk': SiteStore, snapshots: SnapshotTable, id: Id, h: Holder)
    requires SiteOk(disk, snapshots, id, h) && SiteAt(disk', h.website) == SiteAt(disk, h.website)
    requires id in disk'.products <==> id in disk.products
    requires id in disk.products ==> disk'.products[id] == disk.products[id]
    ensures SiteOk(disk', snapshots, id, h)
  {
  }

  lemma WorkKeepsSites(s: State, id: Id, ok: bool, year: int)
    requires Safe(s) && Enabled(s, Work(id, ok, year)) && !s.holders[id].pc.Closing?
    ensures SiteInv(Next(s, Work(id, ok, year)))
  {
    var h := s.holders[id];
    var build := BuildFor(h, year);
    var t := Worked(s, id, ok, year, build);
    assert SiteOk(s.disk, s.snapshots, id, h) && HolderOk(s.rows, id, h) && RowOk(s.rows, id);
    ActionKeepsSite(s.disk, s.snapshots, id, h, s.github, ok, year);
    ActionKeepsOtherSites(s.disk, id, h, build);
    OnlyPushedSucceeds(s.rows, id, h, s.github, ok);
    OwnSiteOnly(s, t, id);
  }

  /** Only the last action of a worker that has pushed marks a deployment succeeded. */
  lemma OnlyPushedSucceeds(rows: Rows, id: Id, h: Holder, github: bool, ok: bool)
    requires HolderOk(rows, id, h) && !h.pc.Locked? && !h.pc.Closing?
    ensures var after := RowsAfter(rows, id, h.pc, github, ok);
            && id in after.deployments
            && after.deployments[id].website == h.website
            && after.deployments[id].snapshot == h.snapshot
            && (after.deployments[id].status.Succeeded? ==> h.pc.Pushed?)
            && forall other :: other != id ==> SameRow(rows, after, other)
  {
  }

  lemma PanicKeepsSites(s: State, id: Id)
    requires Safe(s) && Enabled(s, Panic(id))
    ensures SiteInv(Next(s, Panic(id)))
  {
    var h := s.holders[id];
    assert SiteOk(s.disk, s.snapshots, id, h) && SiteOk(s.disk, s.snapshots, id, h.(pc := Failing));
    assert HolderOk(s.rows, id, h) && ProductOk(s.disk, s.snapshots, id, s.rows.deployments[id]);
    OwnSiteOnly(s, s.(holders := s.holders[id := h.(pc := Failing)]), id);
  }

  lemma InsertKeepsSites(s: State, id: Id)
    requires Safe(s) && Enabled(s, InsertRow(id, true))
    ensures SiteInv(Next(s, InsertRow(id, true)))
  {
    assert SiteOk(s.disk, s.snapshots, id, s.holders[id]);
    OwnSiteOnly(s, Next(s, InsertRow(id, true)), id);
  }

  lemma StepKeepsSites(s: State, step: Step)
    requires Safe(s) && Timely(s) && Enabled(s, step)
    ensures SiteInv(Next(s, step))
  {
    if step.Publish? {
      LockKeepsSites(s, step.newID, s.snapshots[step.snapshot].website, step.snapshot);
    } else if step.Rollback? {
      var row := s.rows.deployments[step.target];
      LockKeepsSites(s, step.newID, row.website, row.snapshot);
    } else if step.InsertRow? {
      if step.ok {
        InsertKeepsSites(s, step.id);
      } else {
        ReleaseKeepsSites(s, step.id);
      }
    } else if step.Work? {
      if s.holders[step.id].pc.Closing? {
        ReleaseKeepsSites(s, step.id);
      } else {
        WorkKeepsSites(s, step.id, step.ok, step.year);
      }
    } else if step.Panic? {
      PanicKeepsSites(s, step.id);
    } else {
      SnapshotKeepsSites(s, Next(s, step));
    }
  }

  lemma StepKeepsSnapshots(s: State, step: Step)
    requires Enabled(s, step)
    ensures Kept(s.snapshots, Next(s, step).snapshots)
  {
  }

  lemma InitialIsSafe(github: bool, start: int)
    ensures Safe(Initial(github, start)) && Timely(Initial(github, start))
  {
  }

  lemma {:induction false} RunKeepsSafe(s: State, steps: seq<Step>, t: State)
    requires Safe(s) && Timely(s) && TimelyReaches(s, steps, t)
    ensures Safe(t) && Timely(t) && Kept(s.snapshots, t.snapshots) && RowsAdvance(s.rows, t.rows)
    decreases |steps|
  {
    if steps != [] {
      var mid := Next(s, steps[0]);
      StepKeepsLocks(s, steps[0]);
      StepKeepsLife(s, steps[0]);
      StepKeepsSites(s, steps[0]);
      StepKeepsSnapshots(s, steps[0]);
      RunKeepsSafe(mid, steps[1..], t);
      forall id ensures RowAdvances(s.rows, t.rows, id) {
        assert RowAdvances(s.rows, mid.rows, id) && RowAdvances(mid.rows, t.rows, id);
      }
    }
  }
}
