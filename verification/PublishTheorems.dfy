/** The promises of publishing and rollback, over whole runs (internal/publish/publisher.go, internal/httpapi/handlers_publish.go). */
module PublishTheorems {
  import opened Results
  import opened Site
  import FileServer
  import opened PublishProtocol
  import opened PublishExclusion
  import opened PublishLifecycle
  import opened PublishSafety

  /** What a finished worker left behind: the site it found, or the complete site of its snapshot. */
  ghost predicate OldOrNew(s: State, h: Holder) {
    if h.built.None? then SiteAt(s.disk, h.website) == h.before
    else
      && SiteAt(s.disk, h.website).Some?
      && PublishedFrom(s.snapshots, h.snapshot, h.website, h.built.value, s.disk.sites[h.website])
  }

  lemma FinishedSite(s: State, id: Id)
    requires Safe(s) && id in s.holders && s.holders[id].pc.Closing?
    ensures OldOrNew(s, s.holders[id])
  {
  }

  lemma SucceededHasBuilt(s: State, id: Id)
    requires Safe(s) && id in s.holders && id in s.rows.deployments && s.rows.deployments[id].status.Succeeded?
    ensures s.holders[id].built.Some?
  {
  }

  /** When a worker is done, its website's directory is exactly what it was, or exactly the complete site of its
      snapshot; the latter whenever the deployment succeeded. A website nobody is publishing shows a whole site. */
  lemma PublishedSiteSafety(github: bool, start: int, steps: seq<Step>, s: State)
    requires TimelyReaches(Initial(github, start), steps, s)
    ensures forall id :: id in s.holders && s.holders[id].pc.Closing? ==> OldOrNew(s, s.holders[id])
    ensures forall id :: id in s.holders && id in s.rows.deployments && s.rows.deployments[id].status.Succeeded? ==>
              s.holders[id].built.Some?
    ensures forall website :: !HasHolder(s, website) ==> WholeSite(s.snapshots, website, SiteAt(s.disk, website))
  {
    InitialIsSafe(github, start);
    RunKeepsSafe(Initial(github, start), steps, s);
    forall id | id in s.holders && s.holders[id].pc.Closing? ensures OldOrNew(s, s.holders[id]) {
      FinishedSite(s, id);
    }
    forall id | id in s.holders && id in s.rows.deployments && s.rows.deployments[id].status.Succeeded?
      ensures s.holders[id].built.Some?
    {
      SucceededHasBuilt(s, id);
    }
  }

  /** What the file server has of a website: nothing, or the complete site of some stored snapshot, working there. */
  ghost predicate Serves(s: State, website: Id) {
    website in s.disk.sites ==>
      exists snapshot, year ::
        snapshot in s.snapshots && FileServer.Published(s.disk.sites, website, s.snapshots[snapshot].content, year)
  }

  lemma WholeSiteIsServed(s: State, website: Id)
    requires WholeSite(s.snapshots, website, SiteAt(s.disk, website))
    ensures Serves(s, website)
  {
    if website in s.disk.sites {
      var snapshot, year :| PublishedFrom(s.snapshots, snapshot, website, year, s.disk.sites[website]);
      FileServer.GeneratedIsPublished(s.disk.sites, website, s.snapshots[snapshot].content, year);
    }
  }

  /** At every moment of every timely run, the site of a website nobody is publishing works for its visitors. */
  lemma IdleSitesAreServed(github: bool, start: int, steps: seq<Step>, s: State, website: Id)
    requires TimelyReaches(Initial(github, start), steps, s) && !HasHolder(s, website)
    ensures Serves(s, website)
  {
    PublishedSiteSafety(github, start, steps, s);
    WholeSiteIsServed(s, website);
  }

  /** The temp build decides: once it succeeded, the destructive rebuild of the site never fails. */
  lemma SiteBuildNeverFails(s: State, id: Id, ok: bool, year: int)
    requires Safe(s) && id in s.holders && (s.holders[id].pc.TempBuilt? || s.holders[id].pc.Writing?)
    ensures var pc := HolderAfter(s.holders[id], s.snapshots, s.github, ok, year, BuildFor(s.holders[id], year)).pc;
            pc.Writing? || pc.SiteBuilt?
  {
  }

  lemma PushFails(s: State, id: Id, year: int, failing: State)
    requires id in s.holders && s.holders[id].pc.Pushing? && failing == Next(s, Work(id, false, year))
    ensures id in failing.holders && failing.holders[id] == s.holders[id].(pc := Failing)
    ensures failing.rows == s.rows && failing.disk == s.disk && failing.snapshots == s.snapshots
  {
  }

  lemma FailureIsRecorded(s: State, id: Id, year: int, failed: State)
    requires id in s.holders && s.holders[id].pc.Failing? && id in s.rows.deployments
    requires failed == Next(s, Work(id, true, year))
    ensures id in failed.holders && failed.holders[id].pc.Closing?
    ensures id in failed.rows.deployments && failed.rows.deployments[id].status.Failed?
    ensures failed.disk == s.disk && failed.snapshots == s.snapshots
  {
  }

  /** But a failed push comes after the rebuild: the deployment fails, and the new site stays. */
  lemma FailedPushLeavesNewSite(s: State, id: Id, year: int, failing: State, failed: State)
    requires Safe(s) && id in s.holders && s.holders[id].pc.Pushing?
    requires failing == Next(s, Work(id, false, year))
    requires Enabled(failing, Work(id, true, year)) && failed == Next(failing, Work(id, true, year))
    ensures id in failed.holders && failed.holders[id].pc.Closing?
    ensures id in failed.rows.deployments && failed.rows.deployments[id].status.Failed?
    ensures SiteAt(failed.disk, s.holders[id].website).Some?
    ensures exists y :: PublishedFrom(
              s.snapshots, s.holders[id].snapshot, s.holders[id].website, y, failed.disk.sites[s.holders[id].website])
  {
    assert SiteOk(s.disk, s.snapshots, id, s.holders[id]) && HolderOk(s.rows, id, s.holders[id]);
    PushFails(s, id, year, failing);
    FailureIsRecorded(failing, id, year, failed);
  }

  // ---- Rollback ----

  /** Everything ever done under an id concerns one website and one snapshot. */
  ghost predicate Tracks(s: State, id: Id, website: Id, snapshot: Id) {
    && id in s.issued
    && (id in s.holders ==> s.holders[id].website == website && s.holders[id].snapshot == snapshot)
    && (id in s.rows.deployments ==>
          s.rows.deployments[id].website == website && s.rows.deployments[id].snapshot == snapshot)
  }

  lemma WorkTracks(
    s: State, worker: Id, ok: bool, year: int, build: Attempt, id: Id, website: Id, snapshot: Id)
    requires LifeInv(s) && Tracks(s, id, website, snapshot)
    requires worker in s.holders && !s.holders[worker].pc.Locked? && !s.holders[worker].pc.Closing?
    ensures Tracks(Worked(s, worker, ok, year, build), id, website, snapshot)
  {
  }

  lemma LockTracks(s: State, newID: Id, website': Id, snapshot': Id, id: Id, website: Id, snapshot: Id)
    requires Unused(s, newID) && Tracks(s, id, website, snapshot)
    ensures Tracks(LockTaken(s, newID, website', snapshot'), id, website, snapshot)
  {
  }

  lemma StepTracks(s: State, step: Step, id: Id, website: Id, snapshot: Id)
    requires LifeInv(s) && Enabled(s, step) && Tracks(s, id, website, snapshot)
    ensures Tracks(Next(s, step), id, website, snapshot)
  {
    match step
    case Publish(newID, taken) => LockTracks(s, newID, s.snapshots[taken].website, taken, id, website, snapshot);
    case Rollback(newID, target) =>
      var row := s.rows.deployments[target];
      LockTracks(s, newID, row.website, row.snapshot, id, website, snapshot);
    case Work(worker, ok, year) =>
      if !s.holders[worker].pc.Closing? {
        WorkTracks(s, worker, ok, year, BuildFor(s.holders[worker], year), id, website, snapshot);
      }
    case _ =>
  }

  lemma RollbackTracks(s: State, target: Id, newID: Id)
    requires LifeInv(s) && Enabled(s, Rollback(newID, target)) && newID in Next(s, Rollback(newID, target)).holders
    ensures var row := s.rows.deployments[target];
            Tracks(Next(s, Rollback(newID, target)), newID, row.website, row.snapshot)
  {
  }

  lemma {:induction false} RunTracks(s: State, steps: seq<Step>, t: State, id: Id, website: Id, snapshot: Id)
    requires Safe(s) && Timely(s) && TimelyReaches(s, steps, t) && Tracks(s, id, website, snapshot)
    ensures Tracks(t, id, website, snapshot)
    decreases |steps|
  {
    if steps != [] {
      RunKeepsSafe(s, [steps[0]], Next(s, steps[0]));
      StepTracks(s, steps[0], id, website, snapshot);
      RunTracks(Next(s, steps[0]), steps[1..], t, id, website, snapshot);
    }
  }

  /** Two renderings of one stored snapshot for one website in one year are the same files. */
  lemma SameProduct(
    snapshots: SnapshotTable, later: SnapshotTable, snapshot: Id, website: Id, year: int, files: Files, files': Files)
    requires Kept(snapshots, later)
    requires PublishedFrom(snapshots, snapshot, website, year, files)
    requires PublishedFrom(later, snapshot, website, year, files')
    ensures files == files'
  {
  }

  lemma Reproduced(s: State, t: State, target: Id, newID: Id)
    requires Safe(s) && Safe(t) && Kept(s.snapshots, t.snapshots)
    requires target in s.rows.deployments && s.rows.deployments[target].status.Succeeded?
    requires newID in t.rows.deployments && t.rows.deployments[newID].status.Succeeded?
    requires Tracks(t, newID, s.rows.deployments[target].website, s.rows.deployments[target].snapshot)
    ensures target in s.disk.products && newID in t.disk.products
    ensures t.disk.products[newID].year == s.disk.products[target].year ==>
              t.disk.products[newID].files == s.disk.products[target].files
    ensures newID in t.holders ==>
              SiteAt(t.disk, s.rows.deployments[target].website) == Some(t.disk.products[newID].files)
  {
    var row := s.rows.deployments[target];
    assert ProductOk(s.disk, s.snapshots, target, row);
    assert ProductOk(t.disk, t.snapshots, newID, t.rows.deployments[newID]);
    if t.disk.products[newID].year == s.disk.products[target].year {
      SameProduct(s.snapshots, t.snapshots, row.snapshot, row.website, s.disk.products[target].year,
                  s.disk.products[target].files, t.disk.products[newID].files);
    }
    if newID in t.holders {
      assert SiteOk(t.disk, t.snapshots, newID, t.holders[newID]);
    }
  }

  /** A rollback that was accepted and succeeded restores, within one year, exactly the files its target produced,
      whatever edits, snapshots and other publishes happened before, between and during. */
  lemma RollbackReproduces(s: State, target: Id, newID: Id, steps: seq<Step>, t: State)
    requires Safe(s) && Timely(s) && Enabled(s, Rollback(newID, target))
    requires var s1 := Next(s, Rollback(newID, target));
             newID in s1.holders && Timely(s1) && TimelyReaches(s1, steps, t)
    requires newID in t.rows.deployments && t.rows.deployments[newID].status.Succeeded?
    ensures target in s.disk.products && newID in t.disk.products
    ensures t.disk.products[newID].year == s.disk.products[target].year ==>
              t.disk.products[newID].files == s.disk.products[target].files
    ensures newID in t.holders ==>
              SiteAt(t.disk, s.rows.deployments[target].website) == Some(t.disk.products[newID].files)
  {
    var row := s.rows.deployments[target];
    var s1 := Next(s, Rollback(newID, target));
    RollbackTracks(s, target, newID);
    RunKeepsSafe(s, [Rollback(newID, target)], s1);
    RunKeepsSafe(s1, steps, t);
    RunTracks(s1, steps, t, newID, row.website, row.snapshot);
    Reproduced(s, t, target, newID);
  }
}
