/** StartPublish, run, fail and the worker as the program text orders them (internal/publish/publisher.go),
    each method proved to be a run of the state machine. */
module Publisher {
  import opened Results
  import opened Snapshots
  import opened Site
  import opened Generator
  import FileServer
  import opened Cache
  import opened PublishProtocol
  import opened PublishSafety

  datatype StartError = PublishInProgress | InsertFailed

  datatype Response = NotFound | BadRequest | Conflict | ServerError | Accepted(id: Id)

  function ResponseOf(r: Result<Id, StartError>): Response {
    match r
    case Ok(id) => Accepted(id)
    case Err(PublishInProgress) => Conflict
    case Err(InsertFailed) => ServerError
  }

  /** What a request that reaches StartPublish by a given step does to the state, and how it is answered. */
  ghost predicate RequestDone(s: State, step: Step, newID: Id, insert: bool, response: Response, t: State) {
    && Enabled(s, step)
    && var locked := Next(s, step);
    && (response == Conflict ==> newID !in locked.issued && t == locked)
    && (response != Conflict ==>
          && newID in locked.holders
          && Enabled(locked, InsertRow(newID, insert))
          && t == Next(locked, InsertRow(newID, insert))
          && response == if insert then Accepted(newID) else ServerError)
  }

  /** How the calls outside the process turn out for one worker; `year` is read once per generator call. */
  datatype Fate = Fate(
    building: bool, load: bool, tempDir: bool, tempYear: int, siteYear: int,
    deploying: bool, push: bool, success: bool, failure: bool)

  // ---- Runs of steps ----

  lemma {:induction false} ReachesThrough(s: State, first: seq<Step>, mid: State, second: seq<Step>, t: State)
    requires Reaches(s, first, mid) && Reaches(mid, second, t)
    ensures Reaches(s, first + second, t)
    decreases |first|
  {
    if first == [] {
      assert first + second == second;
    } else {
      ReachesThrough(Next(s, first[0]), first[1..], mid, second, t);
      assert (first + second)[1..] == first[1..] + second;
    }
  }

  predicate AllBy(steps: seq<Step>, id: Id) {
    forall i :: 0 <= i < |steps| ==> steps[i].Work? && steps[i].id == id
  }

  /** Some number of actions of one worker lead from s to t. */
  ghost predicate WorkLeads(s: State, id: Id, t: State) {
    exists steps :: AllBy(steps, id) && Reaches(s, steps, t)
  }

  lemma WorkLeadsOn(s: State, id: Id, mid: State, t: State)
    requires WorkLeads(s, id, mid) && WorkLeads(mid, id, t)
    ensures WorkLeads(s, id, t)
  {
    var first :| AllBy(first, id) && Reaches(s, first, mid);
    var second :| AllBy(second, id) && Reaches(mid, second, t);
    ReachesThrough(s, first, mid, second, t);
    assert AllBy(first + second, id);
  }

  lemma NoWork(s: State, id: Id)
    ensures WorkLeads(s, id, s)
  {
    assert AllBy([], id) && Reaches(s, [], s);
  }

  lemma OneAction(s: State, id: Id, ok: bool, year: int)
    requires Enabled(s, Work(id, ok, year))
    ensures WorkLeads(s, id, Next(s, Work(id, ok, year)))
  {
    OneStep(s, Work(id, ok, year));
    assert AllBy([Work(id, ok, year)], id);
  }

  lemma OneStep(s: State, step: Step)
    requires Enabled(s, step)
    ensures Reaches(s, [step], Next(s, step))
  {
  }

  /** The actions of a worker that neither build nor release, as one step. */
  lemma Acts(s: State, id: Id, ok: bool)
    requires id in s.holders
    requires var pc := s.holders[id].pc;
             pc.Started? || pc.Loading? || pc.SiteBuilt? || pc.Pushing? || pc.Pushed? || pc.Failing?
    ensures WorkLeads(s, id, Acted(s, id, ok))
  {
    OneAction(s, id, ok, 0);
    assert Acted(s, id, ok).disk == s.disk;
  }

  function Acted(s: State, id: Id, ok: bool): State
    requires id in s.holders
  {
    var h := s.holders[id];
    s.(rows := RowsAfter(s.rows, id, h.pc, s.github, ok),
       holders := s.holders[id := HolderAfter(h, s.snapshots, s.github, ok, 0, Refused)])
  }

  /** The state after the rest of a site build. */
  function SiteDone(s: State, id: Id, writes: seq<Write>): State
    requires id in s.holders && s.holders[id].pc.Writing?
  {
    var h := s.holders[id];
    s.(disk := SiteStore(s.disk.sites[h.website := Stored(writes)],
                         s.disk.products[id := Product(h.pc.year, Stored(writes))]),
       holders := s.holders[id := h.(pc := SiteBuilt, built := Some(h.pc.year))])
  }

  ghost predicate MidSite(s: State, id: Id, writes: seq<Write>) {
    && id in s.holders
    && s.holders[id].pc.Writing?
    && PartlyWritten(s.disk, s.holders[id].website, writes, s.holders[id].pc.done)
  }

  lemma LastFile(s: State, id: Id, ok: bool, year: int, writes: seq<Write>)
    requires MidSite(s, id, writes) && s.holders[id].pc.done == |writes|
    ensures Worked(s, id, ok, year, Attempt(writes, true)) == SiteDone(s, id, writes)
  {
    assert writes[..|writes|] == writes;
    assert s.disk.sites[s.holders[id].website := Stored(writes)] == s.disk.sites;
  }

  lemma OneFile(s: State, id: Id, ok: bool, year: int, writes: seq<Write>)
    requires MidSite(s, id, writes) && s.holders[id].pc.done < |writes|
    ensures var t, h := Worked(s, id, ok, year, Attempt(writes, true)), s.holders[id];
            && MidSite(t, id, writes)
            && t.holders[id] == h.(pc := h.pc.(done := h.pc.done + 1))
            && SiteDone(t, id, writes) == SiteDone(s, id, writes)
  {
    var h := s.holders[id];
    FileKeepsSite(s.disk, id, h, writes);
    var t := Worked(s, id, ok, year, Attempt(writes, true));
    assert t.disk.sites[h.website := Stored(writes)] == s.disk.sites[h.website := Stored(writes)];
    assert t.holders[id := h.(pc := SiteBuilt, built := Some(h.pc.year))]
        == s.holders[id := h.(pc := SiteBuilt, built := Some(h.pc.year))];
  }

  /** The rest of a site build: one action per file, and one to finish. */
  lemma {:induction false} SiteWritesRun(s: State, id: Id, year: int, writes: seq<Write>)
    requires MidSite(s, id, writes) && BuildFor(s.holders[id], year) == Attempt(writes, true)
    ensures WorkLeads(s, id, SiteDone(s, id, writes))
    decreases |writes| - s.holders[id].pc.done
  {
    var mid := Worked(s, id, true, year, Attempt(writes, true));
    assert Next(s, Work(id, true, year)) == mid;
    OneAction(s, id, true, year);
    if s.holders[id].pc.done == |writes| {
      LastFile(s, id, true, year, writes);
    } else {
      OneFile(s, id, true, year, writes);
      SiteWritesRun(mid, id, year, writes);
      WorkLeadsOn(s, id, mid, SiteDone(s, id, writes));
    }
  }

  // ---- The program ----

  /** A row in progress whose worker is at a given point. */
  ghost predicate WorkerAt(s: State, id: Id, website: Id, snapshot: Id, pc: Pc) {
    && id in s.holders
    && s.holders[id].website == website
    && s.holders[id].snapshot == snapshot
    && s.holders[id].pc == pc
    && id in s.rows.deployments
  }

  /** One row got a status; with a final one it also got its time of completion. */
  ghost predicate StatusRecorded(before: Rows, after: Rows, id: Id, status: Status) {
    && id in before.deployments
    && var row := before.deployments[id];
    && after.deployments == before.deployments[id :=
         Deployment(row.website, row.snapshot, status, row.completed || status == Succeeded || status == Failed)]
  }

  class Service {
    const github: bool
    var now: int
    var cache: Table
    /** The tenant of each website; a deployment row carries the tenant of its website. */
    var owners: map<Id, Id>
    var drafts: map<Id, Snapshot>
    var snapshots: map<Id, SnapshotRow>
    var rows: Rows
    var disk: SiteStore
    ghost var holders: map<Id, Holder>
    ghost var issued: set<Id>

    ghost function View(): State
      reads this
    {
      State(github, now, cache, drafts, snapshots, rows, disk, holders, issued)
    }

    predicate Owns(tenant: Id, website: Id)
      reads this
    {
      website in owners && owners[website] == tenant
    }

    constructor (github: bool, now: int)
      ensures View() == Initial(github, now) && owners == map[]
    {
      this.github, this.now, owners, cache, drafts, snapshots := github, now, map[], map[], map[], map[];
      rows, disk, holders, issued := Rows(map[], multiset{}, {}), SiteStore(map[], map[]), map[], {};
    }

    /** Refused while the lock is live; otherwise takes it, inserts the row, and gives the lock back if that fails. */
    method StartPublish(newID: Id, website: Id, snapshot: Id, insert: bool) returns (r: Result<Id, StartError>)
      requires newID !in issued
      modifies `cache, `holders, `issued, `rows
      ensures r == if Live(old(cache), LockKey(website), old(now)).Some? then Err(PublishInProgress)
                   else if insert then Ok(newID) else Err(InsertFailed)
      ensures var locked := LockTaken(old(View()), newID, website, snapshot);
              if r == Err(PublishInProgress) then newID !in locked.issued && View() == locked
              else newID in locked.holders && locked.holders[newID].pc.Locked?
                   && View() == Next(locked, InsertRow(newID, insert))
      ensures r.Ok? ==> rows.deployments == old(rows).deployments[newID := Deployment(website, snapshot, Queued, false)]
    {
      var (cache', out) := Cache.Step(cache, SetNX(LockKey(website), snapshot, LOCK_TTL), now);
      cache := cache';
      if !out.ok {
        return Err(PublishInProgress);
      }
      holders := holders[newID := Holder(website, snapshot, now, Locked, SiteAt(disk, website), None)];
      issued := issued + {newID};
      if !insert {
        cache := Cache.Step(cache, Delete(LockKey(website)), now).0;
        holders := holders - {newID};
        return Err(InsertFailed);
      }
      rows := rows.(deployments := rows.deployments[newID := Deployment(website, snapshot, Queued, false)]);
      holders := holders[newID := holders[newID].(pc := Started)];
      return Ok(newID);
    }

    /** Snapshots the current content first, whether or not the publish can then start. `built` and `saved` say whether
        the snapshot can be read and its row inserted. */
    method HandlePublish(
      tenant: Id, website: Id, newSnapshot: Id, newID: Id, built: bool, saved: bool, insert: bool)
      returns (response: Response)
      requires newID !in issued && newSnapshot !in snapshots
      modifies `cache, `holders, `issued, `rows, `snapshots
      ensures var draft := website in old(drafts) && built;
              var pages := if draft then old(drafts)[website].pages else [];
              if !old(Owns(tenant, website)) then response == NotFound && View() == old(View())
              else if !draft then response == ServerError && View() == old(View())
              else if pages == [] then response == BadRequest && View() == old(View())
              else if !saved then response == ServerError && View() == old(View())
              else
                RequestDone(Next(old(View()), TakeSnapshot(website, newSnapshot)), Publish(newID, newSnapshot), newID,
                            insert, response, View())
      ensures response.Accepted? ==>
        && response.id == newID
        && snapshots == old(snapshots)[newSnapshot := SnapshotRow(website, old(drafts)[website])]
        && rows.deployments == old(rows).deployments[newID := Deployment(website, newSnapshot, Queued, false)]
    {
      if !Owns(tenant, website) {
        return NotFound;
      }
      if !built || website !in drafts {
        return ServerError;
      }
      if |drafts[website].pages| == 0 {
        return BadRequest;
      }
      if !saved {
        return ServerError;
      }
      snapshots := snapshots[newSnapshot := SnapshotRow(website, drafts[website])];
      var r := StartPublish(newID, website, newSnapshot, insert);
      response := ResponseOf(r);
    }

    /** Republishes the snapshot of a deployment of the tenant, if that succeeded; `found` says whether the query ran. */
    method HandleRollback(tenant: Id, target: Id, newID: Id, found: bool, insert: bool) returns (response: Response)
      requires newID !in issued
      modifies `cache, `holders, `issued, `rows
      ensures var mine := target in old(rows).deployments && old(Owns(tenant, rows.deployments[target].website));
              if !found then response == ServerError && View() == old(View())
              else if !mine then response == NotFound && View() == old(View())
              else if !old(rows).deployments[target].status.Succeeded? then
                response == BadRequest && View() == old(View())
              else RequestDone(old(View()), Rollback(newID, target), newID, insert, response, View())
      ensures response.Accepted? ==>
        && response.id == newID
        && var row := old(rows).deployments[target];
        && rows.deployments == old(rows).deployments[newID := Deployment(row.website, row.snapshot, Queued, false)]
    {
      if !found {
        return ServerError;
      }
      if target !in rows.deployments || !Owns(tenant, rows.deployments[target].website) {
        return NotFound;
      }
      var row := rows.deployments[target];
      if row.status != Succeeded {
        return BadRequest;
      }
      var r := StartPublish(newID, row.website, row.snapshot, insert);
      response := ResponseOf(r);
    }

    method SetStatus(id: Id, status: Status, ok: bool)
      modifies `rows
      ensures rows == WithStatus(old(rows), id, status, ok)
      ensures ok && id in old(rows).deployments ==> StatusRecorded(old(rows), rows, id, status)
      ensures !ok || id !in old(rows).deployments ==> rows == old(rows)
    {
      if ok && id in rows.deployments {
        var row := rows.deployments[id].(status := status);
        if status.Succeeded? || status.Failed? {
          row := row.(completed := true);
        }
        rows := rows.(deployments := rows.deployments[id := row]);
      }
    }

    /** run, its first statement. */
    method Begin(id: Id, website: Id, snapshot: Id, fate: Fate)
      requires WorkerAt(View(), id, website, snapshot, Started)
      modifies `rows, `holders
      ensures WorkLeads(old(View()), id, View())
      ensures if fate.building then StatusRecorded(old(rows), rows, id, Building) else rows == old(rows)
      ensures WorkerAt(View(), id, website, snapshot, Loading)
      ensures holders == old(holders)[id := holders[id]]
    {
      ghost var s0 := View();
      SetStatus(id, Building, fate.building);
      holders := holders[id := holders[id].(pc := Loading)];
      Acts(s0, id, fate.building);
    }

    /** run, the snapshot row. */
    method Load(id: Id, website: Id, snapshot: Id, fate: Fate) returns (snap: Option<Snapshot>)
      requires WorkerAt(View(), id, website, snapshot, Loading)
      modifies `holders
      ensures WorkLeads(old(View()), id, View())
      ensures snap == if fate.load && snapshot in snapshots then Some(snapshots[snapshot].content) else None
      ensures WorkerAt(View(), id, website, snapshot, if snap.Some? then Loaded(snap.value) else Failing)
      ensures holders == old(holders)[id := holders[id]]
    {
      ghost var s0 := View();
      snap := if fate.load && snapshot in snapshots then Some(snapshots[snapshot].content) else None;
      holders := holders[id := holders[id].(pc := if snap.Some? then Loaded(snap.value) else Failing)];
      Acts(s0, id, fate.load);
    }

    /** run, the build into a temporary directory: nothing of the service changes. */
    method BuildTemp(id: Id, website: Id, snapshot: Id, snap: Snapshot, fate: Fate)
      returns (ok: bool)
      requires WorkerAt(View(), id, website, snapshot, Loaded(snap))
      modifies `holders
      ensures WorkLeads(old(View()), id, View())
      ensures ok <==> fate.tempDir && Buildable(snap)
      ensures WorkerAt(View(), id, website, snapshot, if ok then TempBuilt(snap) else Failing)
      ensures holders == old(holders)[id := holders[id]]
    {
      ghost var s0 := View();
      ok := fate.tempDir;
      if ok {
        var temp := new Disk();
        var err := temp.Generate(snap, "build", "", fate.tempYear);
        ok := err.None?;
      }
      AttemptOfBuildable(snap, "", fate.tempYear);
      holders := holders[id := holders[id].(pc := if ok then TempBuilt(snap) else Failing)];
      OneAction(s0, id, fate.tempDir, fate.tempYear);
    }

    /** run, the rebuild of the site directory: one generator call, many steps of the machine. */
    method BuildSite(id: Id, website: Id, snapshot: Id, snap: Snapshot, fate: Fate)
      requires WorkerAt(View(), id, website, snapshot, TempBuilt(snap)) && Buildable(snap)
      modifies `disk, `holders
      ensures WorkLeads(old(View()), id, View())
      ensures disk.sites == old(disk).sites[website := Generated(snap, "/sites/" + website, fate.siteYear)]
      ensures WorkerAt(View(), id, website, snapshot, SiteBuilt)
      ensures holders == old(holders)[id := holders[id]]
    {
      SiteBuildRun(View(), id, snap, fate.siteYear);
      var files, err := BuildFiles(snap, BasePath(website), fate.siteYear);
      disk := SiteStore(disk.sites[website := files], disk.products[id := Product(fate.siteYear, files)]);
      holders := holders[id := holders[id].(pc := SiteBuilt, built := Some(fate.siteYear))];
    }

    /** deployToGitHub, its first statement. */
    method MarkDeploying(id: Id, website: Id, snapshot: Id, fate: Fate)
      requires github && WorkerAt(View(), id, website, snapshot, SiteBuilt)
      modifies `rows, `holders
      ensures WorkLeads(old(View()), id, View())
      ensures if fate.deploying then StatusRecorded(old(rows), rows, id, Deploying) else rows == old(rows)
      ensures WorkerAt(View(), id, website, snapshot, Pushing)
      ensures holders == old(holders)[id := holders[id]]
    {
      ghost var s0 := View();
      SetStatus(id, Deploying, fate.deploying);
      holders := holders[id := holders[id].(pc := Pushing)];
      Acts(s0, id, fate.deploying);
    }

    /** deployToGitHub, the push and the Cloudflare deployment: nothing of the service changes. */
    method DeployToGitHub(id: Id, website: Id, snapshot: Id, fate: Fate) returns (ok: bool)
      requires WorkerAt(View(), id, website, snapshot, Pushing)
      modifies `holders
      ensures WorkLeads(old(View()), id, View())
      ensures ok <==> fate.push
      ensures WorkerAt(View(), id, website, snapshot, if ok then Pushed else Failing)
      ensures holders == old(holders)[id := holders[id]]
    {
      ghost var s0 := View();
      ok := fate.push;
      holders := holders[id := holders[id].(pc := if ok then Pushed else Failing)];
      Acts(s0, id, fate.push);
    }

    /** run, the push when it is configured. */
    method Push(id: Id, website: Id, snapshot: Id, fate: Fate) returns (ok: bool)
      requires WorkerAt(View(), id, website, snapshot, SiteBuilt)
      modifies `rows, `holders
      ensures WorkLeads(old(View()), id, View())
      ensures ok <==> !github || fate.push
      ensures if github && fate.deploying then StatusRecorded(old(rows), rows, id, Deploying) else rows == old(rows)
      ensures WorkerAt(View(), id, website, snapshot, if ok then Pushed else Failing)
      ensures holders == old(holders)[id := holders[id]]
    {
      ghost var s0 := View();
      if !github {
        holders := holders[id := holders[id].(pc := Pushed)];
        Acts(s0, id, true);
        return true;
      }
      MarkDeploying(id, website, snapshot, fate);
      ghost var s1 := View();
      ok := DeployToGitHub(id, website, snapshot, fate);
      WorkLeadsOn(s0, id, s1, View());
    }

    /** run, its last statement. */
    method RecordSuccess(id: Id, website: Id, snapshot: Id, fate: Fate) returns (ok: bool)
      requires WorkerAt(View(), id, website, snapshot, Pushed)
      modifies `rows, `holders
      ensures WorkLeads(old(View()), id, View())
      ensures ok <==> fate.success
      ensures WorkerAt(View(), id, website, snapshot, if ok then Closing else Failing)
      ensures if ok then StatusRecorded(old(rows), rows, id, Succeeded) else rows == old(rows)
      ensures holders == old(holders)[id := holders[id]]
    {
      ghost var s0 := View();
      SetStatus(id, Succeeded, fate.success);
      ok := fate.success;
      holders := holders[id := holders[id].(pc := if ok then Closing else Failing)];
      Acts(s0, id, fate.success);
    }

    method Fail(id: Id, website: Id, snapshot: Id, fate: Fate)
      requires WorkerAt(View(), id, website, snapshot, Failing)
      modifies `rows, `holders
      ensures WorkLeads(old(View()), id, View())
      ensures WorkerAt(View(), id, website, snapshot, Closing)
      ensures fate.failure ==> StatusRecorded(old(rows), rows, id, Failed)
      ensures !fate.failure ==> rows.deployments == old(rows).deployments
      ensures holders == old(holders)[id := holders[id]]
    {
      ghost var s0 := View();
      SetStatus(id, Failed, fate.failure);
      rows := rows.(failCalls := rows.failCalls + multiset{id},
                    lostFailures := if fate.failure then rows.lostFailures else rows.lostFailures + {id});
      holders := holders[id := holders[id].(pc := Closing)];
      Acts(s0, id, fate.failure);
    }

    method BeginAndLoad(id: Id, website: Id, snapshot: Id, fate: Fate) returns (snap: Option<Snapshot>)
      requires WorkerAt(View(), id, website, snapshot, Started)
      modifies `rows, `holders
      ensures WorkLeads(old(View()), id, View())
      ensures snap == if fate.load && snapshot in snapshots then Some(snapshots[snapshot].content) else None
      ensures WorkerAt(View(), id, website, snapshot, if snap.Some? then Loaded(snap.value) else Failing)
      ensures holders == old(holders)[id := holders[id]]
    {
      Begin(id, website, snapshot, fate);
      ghost var s1 := View();
      snap := Load(id, website, snapshot, fate);
      WorkLeadsOn(old(View()), id, s1, View());
    }

    /** run, up to the successful temp build. */
    method Prepare(id: Id, website: Id, snapshot: Id, fate: Fate) returns (snap: Option<Snapshot>)
      requires WorkerAt(View(), id, website, snapshot, Started)
      modifies `rows, `holders
      ensures WorkLeads(old(View()), id, View())
      ensures snap.Some? <==> Builds(snapshots, snapshot, fate)
      ensures snap.Some? ==> snap.value == snapshots[snapshot].content
      ensures WorkerAt(View(), id, website, snapshot, if snap.Some? then TempBuilt(snap.value) else Failing)
      ensures holders == old(holders)[id := holders[id]]
    {
      snap := BeginAndLoad(id, website, snapshot, fate);
      if snap.Some? {
        ghost var s1 := View();
        var ok := BuildTemp(id, website, snapshot, snap.value, fate);
        WorkLeadsOn(old(View()), id, s1, View());
        if !ok {
          snap := None;
        }
      }
    }

    /** run, from the built site on. */
    method Finish(id: Id, website: Id, snapshot: Id, fate: Fate) returns (ok: bool)
      requires WorkerAt(View(), id, website, snapshot, SiteBuilt)
      modifies `rows, `holders
      ensures WorkLeads(old(View()), id, View())
      ensures ok <==> (!github || fate.push) && fate.success
      ensures WorkerAt(View(), id, website, snapshot, if ok then Closing else Failing)
      ensures ok ==> rows.deployments[id].status.Succeeded?
      ensures holders == old(holders)[id := holders[id]]
    {
      ghost var s0 := View();
      ok := Push(id, website, snapshot, fate);
      if ok {
        ghost var s1 := View();
        ok := RecordSuccess(id, website, snapshot, fate);
        WorkLeadsOn(s0, id, s1, View());
      }
    }

    /** run, after the temp build. */
    method Deploy(id: Id, website: Id, snapshot: Id, snap: Snapshot, fate: Fate) returns (ok: bool)
      requires WorkerAt(View(), id, website, snapshot, TempBuilt(snap)) && Buildable(snap)
      modifies `rows, `disk, `holders
      ensures WorkLeads(old(View()), id, View())
      ensures ok <==> (!github || fate.push) && fate.success
      ensures WorkerAt(View(), id, website, snapshot, if ok then Closing else Failing)
      ensures ok ==> rows.deployments[id].status.Succeeded?
      ensures holders == old(holders)[id := holders[id]]
      ensures disk.sites == old(disk).sites[website := Generated(snap, "/sites/" + website, fate.siteYear)]
    {
      ghost var s0 := View();
      BuildSite(id, website, snapshot, snap, fate);
      ghost var s1 := View();
      ok := Finish(id, website, snapshot, fate);
      WorkLeadsOn(s0, id, s1, View());
    }

    /** run, after the temp build if that succeeded. */
    method DeployIfBuilt(id: Id, website: Id, snapshot: Id, snap: Option<Snapshot>, fate: Fate) returns (ok: bool)
      requires snap.Some? ==> Buildable(snap.value)
      requires WorkerAt(View(), id, website, snapshot, if snap.Some? then TempBuilt(snap.value) else Failing)
      modifies `rows, `disk, `holders
      ensures WorkLeads(old(View()), id, View())
      ensures ok <==> snap.Some? && (!github || fate.push) && fate.success
      ensures WorkerAt(View(), id, website, snapshot, if ok then Closing else Failing)
      ensures ok ==> rows.deployments[id].status.Succeeded?
      ensures holders == old(holders)[id := holders[id]]
      ensures disk.sites == if snap.Some? then
        old(disk).sites[website := Generated(snap.value, "/sites/" + website, fate.siteYear)] else old(disk).sites
    {
      if snap.Some? {
        ok := Deploy(id, website, snapshot, snap.value, fate);
      } else {
        NoWork(View(), id);
        ok := false;
      }
    }

    /** run as a whole. */
    method Run(id: Id, website: Id, snapshot: Id, fate: Fate) returns (ok: bool)
      requires WorkerAt(View(), id, website, snapshot, Started)
      modifies `rows, `disk, `holders
      ensures WorkLeads(old(View()), id, View())
      ensures ok <==> Builds(snapshots, snapshot, fate) && (!github || fate.push) && fate.success
      ensures WorkerAt(View(), id, website, snapshot, if ok then Closing else Failing)
      ensures ok ==> rows.deployments[id].status.Succeeded?
      ensures holders == old(holders)[id := holders[id]]
      ensures disk.sites == SitesAfter(old(disk).sites, snapshots, website, snapshot, fate)
    {
      ghost var s0 := View();
      var snap := Prepare(id, website, snapshot, fate);
      ghost var s1 := View();
      ok := DeployIfBuilt(id, website, snapshot, snap, fate);
      WorkLeadsOn(s0, id, s1, View());
    }

    /** The deferred Delete. */
    method Unlock(id: Id, website: Id, snapshot: Id)
      requires WorkerAt(View(), id, website, snapshot, Closing)
      modifies `holders, `cache
      ensures WorkLeads(old(View()), id, View())
      ensures holders == old(holders) - {id} && cache == old(cache) - {LockKey(website)}
    {
      ghost var s0 := View();
      cache := Cache.Step(cache, Delete(LockKey(website)), now).0;
      holders := holders - {id};
      OneAction(s0, id, true, 0);
    }

    method RunOrFail(id: Id, website: Id, snapshot: Id, fate: Fate)
      requires WorkerAt(View(), id, website, snapshot, Started)
      modifies `rows, `disk, `holders
      ensures WorkLeads(old(View()), id, View())
      ensures WorkerAt(View(), id, website, snapshot, Closing)
      ensures holders == old(holders)[id := holders[id]]
      ensures disk.sites == SitesAfter(old(disk).sites, snapshots, website, snapshot, fate)
      ensures EndsAs(rows, id, Builds(snapshots, snapshot, fate) && (!github || fate.push) && fate.success, fate)
    {
      ghost var s0 := View();
      var ok := Run(id, website, snapshot, fate);
      if !ok {
        ghost var s1 := View();
        Fail(id, website, snapshot, fate);
        WorkLeadsOn(s0, id, s1, View());
      }
    }

    /** The goroutine of StartPublish: run, fail on error, and the deferred Delete of the lock.
        Undisturbed, it leaves either the old site or the complete new one, and a final status unless fail's write is lost. */
    method Worker(id: Id, website: Id, snapshot: Id, fate: Fate)
      requires WorkerAt(View(), id, website, snapshot, Started)
      modifies `rows, `disk, `holders, `cache
      ensures WorkLeads(old(View()), id, View())
      ensures holders == old(holders) - {id} && cache == old(cache) - {LockKey(website)}
      ensures disk.sites == SitesAfter(old(disk).sites, snapshots, website, snapshot, fate)
      ensures Builds(snapshots, snapshot, fate) ==>
                FileServer.Published(disk.sites, website, snapshots[snapshot].content, fate.siteYear)
      ensures EndsAs(rows, id, Builds(snapshots, snapshot, fate) && (!github || fate.push) && fate.success, fate)
    {
      ghost var s0 := View();
      RunOrFail(id, website, snapshot, fate);
      ghost var s1 := View();
      Unlock(id, website, snapshot);
      WorkLeadsOn(s0, id, s1, View());
      if Builds(snapshots, snapshot, fate) {
        FileServer.GeneratedIsPublished(disk.sites, website, snapshots[snapshot].content, fate.siteYear);
      }
    }
  }

  /** The old site, or the complete new one. */
  ghost function SitesAfter(
    sites: map<Id, Files>, snapshots: map<Id, SnapshotRow>, website: Id, snapshot: Id, fate: Fate): map<Id, Files>
  {
    if Builds(snapshots, snapshot, fate)
    then sites[website := Generated(snapshots[snapshot].content, "/sites/" + website, fate.siteYear)]
    else sites
  }

  ghost predicate EndsAs(rows: Rows, id: Id, succeeded: bool, fate: Fate) {
    && id in rows.deployments
    && if succeeded then rows.deployments[id].status.Succeeded?
       else fate.failure ==> rows.deployments[id].status.Failed?
  }

  /** The snapshot loads and renders, so that the site gets replaced. */
  ghost predicate Builds(snapshots: map<Id, SnapshotRow>, snapshot: Id, fate: Fate) {
    fate.load && snapshot in snapshots && fate.tempDir && Buildable(snapshots[snapshot].content)
  }

  /** The lock of a website: its key, and that it lasts fifteen minutes. */
  lemma LockSays(s: State, newID: Id, website: Id, snapshot: Id)
    ensures var t, key := LockTaken(s, newID, website, snapshot), "deploylock:" + website;
            if key in s.cache && s.now <= s.cache[key].expiresAt then t == s
            else
              && newID in t.holders && newID in t.issued
              && t.cache == s.cache[key := Entry(snapshot, s.now + 900_000_000_000)]
  {
  }

  lemma SiteCleared(s: State, id: Id, year: int, writes: seq<Write>)
    requires id in s.holders && s.holders[id].pc.TempBuilt? && BuildFor(s.holders[id], year) == Attempt(writes, true)
    ensures var t := Worked(s, id, true, year, Attempt(writes, true));
            MidSite(t, id, writes) && BuildFor(t.holders[id], year) == Attempt(writes, true)
  {
    assert writes[..0] == [];
  }

  lemma ClearingLeads(s: State, id: Id, year: int, writes: seq<Write>)
    requires id in s.holders && s.holders[id].pc.TempBuilt? && BuildFor(s.holders[id], year) == Attempt(writes, true)
    ensures var t := Worked(s, id, true, year, Attempt(writes, true));
            && WorkLeads(s, id, t)
            && MidSite(t, id, writes)
            && BuildFor(t.holders[id], year) == Attempt(writes, true)
  {
    OneAction(s, id, true, year);
    SiteCleared(s, id, year, writes);
  }

  /** The whole site build, from a successful temp build on. */
  lemma SiteBuildRun(s: State, id: Id, snap: Snapshot, year: int)
    requires id in s.holders && s.holders[id].pc == TempBuilt(snap) && Buildable(snap)
    ensures var h := s.holders[id];
            var files := Generated(snap, BasePath(h.website), year);
            WorkLeads(s, id, s.(
              disk := SiteStore(s.disk.sites[h.website := files], s.disk.products[id := Product(year, files)]),
              holders := s.holders[id := h.(pc := SiteBuilt, built := Some(year))]))
  {
    var base := BasePath(s.holders[id].website);
    AttemptOfBuildable(snap, base, year);
    var writes := Writes(snap, base, year).value;
    SiteBuildLeads(s, id, snap, year, writes);
  }

  lemma SiteBuildLeads(s: State, id: Id, snap: Snapshot, year: int, writes: seq<Write>)
    requires id in s.holders && s.holders[id].pc == TempBuilt(snap)
    requires BuildFor(s.holders[id], year) == Attempt(writes, true)
    ensures var h := s.holders[id];
            WorkLeads(s, id, s.(
              disk := SiteStore(s.disk.sites[h.website := Stored(writes)],
                                s.disk.products[id := Product(year, Stored(writes))]),
              holders := s.holders[id := h.(pc := SiteBuilt, built := Some(year))]))
  {
    var s1 := Worked(s, id, true, year, Attempt(writes, true));
    ClearingLeads(s, id, year, writes);
    SiteWritesRun(s1, id, year, writes);
    WorkLeadsOn(s, id, s1, SiteDone(s1, id, writes));
    SiteDoneFromStart(s, s1, id, snap, year, writes);
  }

  lemma SiteDoneFromStart(s: State, s1: State, id: Id, snap: Snapshot, year: int, writes: seq<Write>)
    requires id in s.holders && s.holders[id].pc == TempBuilt(snap)
    requires s1 == Worked(s, id, true, year, Attempt(writes, true))
    ensures SiteDone(s1, id, writes) == s.(
              disk := SiteStore(s.disk.sites[s.holders[id].website := Stored(writes)],
                                s.disk.products[id := Product(year, Stored(writes))]),
              holders := s.holders[id := s.holders[id].(pc := SiteBuilt, built := Some(year))])
  {
  }
}
