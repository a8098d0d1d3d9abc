/**
  The publish protocol as a state machine (internal/publish/publisher.go, internal/httpapi/handlers_publish.go).
  A step is one cache operation, one SQL statement, one file write, or something that happens around them.
  Any number of StartPublish callers and background workers interleave.
 */
module PublishProtocol {
  import opened Results
  import opened Snapshots
  import opened Site
  import opened Cache

  type Id = string

  const MINUTE := 60_000_000_000
  const LOCK_TTL := 15 * MINUTE

  // ---- The database rows ----

  datatype Status = Queued | Building | Deploying | Succeeded | Failed {
    predicate Terminal() { Succeeded? || Failed? }

    function Rank(): nat {
      match this
      case Queued => 0
      case Building => 1
      case Deploying => 2
      case Succeeded => 3
      case Failed => 3
    }
  }

  datatype Deployment = Deployment(website: Id, snapshot: Id, status: Status, completed: bool)

  /** The deployments table; `failCalls` and `lostFailures` are history: calls of fail, and those whose write was lost. */
  datatype Rows = Rows(deployments: map<Id, Deployment>, failCalls: multiset<Id>, lostFailures: set<Id>)

  datatype SnapshotRow = SnapshotRow(website: Id, content: Snapshot)

  // ---- The site directories ----

  datatype Product = Product(year: int, files: Files)

  /** `products` is history: what each deployment's site build left in the directory when it ended. */
  datatype SiteStore = SiteStore(sites: map<Id, Files>, products: map<Id, Product>)

  // ---- Lock holders ----

  /** Where a lock holder is: a StartPublish caller (Locked), or its worker before the named action. */
  datatype Pc =
    | Locked
    | Started
    | Loading
    | Loaded(snap: Snapshot)
    | TempBuilt(snap: Snapshot)
    | Writing(snap: Snapshot, year: int, done: nat)
    | SiteBuilt
    | Pushing
    | Pushed
    | Failing
    | Closing

  /** From SetNX to Delete. `before` and `built` are history: the site at acquisition, the year of a complete build. */
  datatype Holder = Holder(
    website: Id, snapshot: Id, since: int, pc: Pc, before: Option<Files>, built: Option<int>)

  datatype State = State(
    github: bool,
    now: int,
    cache: Table,
    drafts: map<Id, Snapshot>,
    snapshots: map<Id, SnapshotRow>,
    rows: Rows,
    disk: SiteStore,
    holders: map<Id, Holder>,
    issued: set<Id>)

  datatype Step =
    | Tick(delay: nat)
    | Janitor
    | OtherCacheUse(op: Op)
    | Edit(website: Id, draft: Snapshot)
    | TakeSnapshot(website: Id, newID: Id)
    | Publish(newID: Id, snapshot: Id)
    | Rollback(newID: Id, target: Id)
    | InsertRow(id: Id, ok: bool)
    | Work(id: Id, ok: bool, year: int)
    | Panic(id: Id)

  const LOCK_PREFIX := "deploylock:"

  function LockKey(website: Id): string { LOCK_PREFIX + website }

  function BasePath(website: Id): string { "/sites/" + website }

  function SiteAt(disk: SiteStore, website: Id): Option<Files> {
    if website in disk.sites then Some(disk.sites[website]) else None
  }

  // ---- Enabled steps ----

  /** Generated ids do not repeat: a holder's id is that of the deployment it will insert. */
  predicate Unused(s: State, id: Id) { id !in s.issued }

  /** Inside run, where a panic is recovered; the second render of a snapshot that just rendered does not panic. */
  predicate MayPanic(pc: Pc) {
    pc.Started? || pc.Loading? || pc.Loaded? || pc.TempBuilt? || pc.SiteBuilt? || pc.Pushing? || pc.Pushed?
  }

  predicate Enabled(s: State, step: Step) {
    match step
    case Tick(_) => true
    case Janitor => true
    case OtherCacheUse(op) => !op.Sweep? && !(LOCK_PREFIX <= op.key)
    case Edit(_, _) => true
    case TakeSnapshot(website, newID) =>
      website in s.drafts && s.drafts[website].pages != [] && newID !in s.snapshots
    case Publish(newID, snapshot) => Unused(s, newID) && snapshot in s.snapshots
    case Rollback(newID, target) =>
      Unused(s, newID) && target in s.rows.deployments && s.rows.deployments[target].status.Succeeded?
    case InsertRow(id, _) => id in s.holders && s.holders[id].pc.Locked?
    case Work(id, _, _) => id in s.holders && !s.holders[id].pc.Locked?
    case Panic(id) => id in s.holders && MayPanic(s.holders[id].pc)
  }

  // ---- The lock ----

  /** StartPublish up to its SetNX; a live lock refuses the caller and changes nothing. */
  function LockTaken(s: State, newID: Id, website: Id, snapshot: Id): State {
    var (cache, out) := Cache.Step(s.cache, SetNX(LockKey(website), snapshot, LOCK_TTL), s.now);
    if out.ok then
      s.(cache := cache,
         issued := s.issued + {newID},
         holders := s.holders[newID := Holder(website, snapshot, s.now, Locked, SiteAt(s.disk, website), None)])
    else s.(cache := cache)
  }

  function Released(s: State, id: Id): State
    requires id in s.holders
  {
    s.(cache := Cache.Step(s.cache, Delete(LockKey(s.holders[id].website)), s.now).0,
       holders := s.holders - {id})
  }

  // ---- The worker: what an action does to the table, to the disk, and where it leads ----

  /** UPDATE deployments SET status, with completed_at for the final ones: a lost write changes nothing. */
  function WithStatus(rows: Rows, id: Id, status: Status, ok: bool): Rows {
    if ok && id in rows.deployments then
      var row := rows.deployments[id];
      rows.(deployments := rows.deployments[id :=
        row.(status := status, completed := row.completed || status.Terminal())])
    else rows
  }

  function FailRecorded(rows: Rows, id: Id, ok: bool): Rows {
    WithStatus(rows, id, Failed, ok).(
      failCalls := rows.failCalls + multiset{id},
      lostFailures := if ok then rows.lostFailures else rows.lostFailures + {id})
  }

  function RowsAfter(rows: Rows, id: Id, pc: Pc, github: bool, ok: bool): Rows {
    match pc
    case Started => WithStatus(rows, id, Building, ok)
    case SiteBuilt => if github then WithStatus(rows, id, Deploying, ok) else rows
    case Pushed => WithStatus(rows, id, Succeeded, ok)
    case Failing => FailRecorded(rows, id, ok)
    case _ => rows
  }

  /** What the generator does for a holder at its present point. */
  function BuildFor(h: Holder, year: int): Attempt {
    match h.pc
    case Loaded(snap) => Attempted(snap, "", year)
    case TempBuilt(snap) => Attempted(snap, BasePath(h.website), year)
    case Writing(snap, began, _) => Attempted(snap, BasePath(h.website), began)
    case _ => Refused
  }

  predicate Complete(build: Attempt) { build.Attempt? && build.complete }

  predicate MoreToWrite(pc: Pc, build: Attempt) {
    pc.Writing? && build.Attempt? && pc.done < |build.writes|
  }

  /** The generator clears the site directory before it knows whether its build will succeed. */
  function StoreAfter(disk: SiteStore, id: Id, h: Holder, build: Attempt): SiteStore {
    var files := if h.website in disk.sites then disk.sites[h.website] else map[];
    match h.pc
    case TempBuilt(_) =>
      if build.Refused? then disk else disk.(sites := disk.sites[h.website := map[]])
    case Writing(_, year, done) =>
      if MoreToWrite(h.pc, build) then
        var write := build.writes[done];
        disk.(sites := disk.sites[h.website := files[write.path := write.file]])
      else if Complete(build) then disk.(products := disk.products[id := Product(year, files)])
      else disk
    case _ => disk
  }

  function HolderAfter(
    h: Holder, snapshots: map<Id, SnapshotRow>, github: bool, ok: bool, year: int, build: Attempt): (h': Holder)
    ensures h'.website == h.website && h'.snapshot == h.snapshot && h'.since == h.since && h'.before == h.before
  {
    match h.pc
    case Started => h.(pc := Loading)
    case Loading =>
      h.(pc := if ok && h.snapshot in snapshots then Loaded(snapshots[h.snapshot].content) else Failing)
    case Loaded(snap) => h.(pc := if ok && Complete(build) then TempBuilt(snap) else Failing)
    case TempBuilt(snap) => h.(pc := if build.Refused? then Failing else Writing(snap, year, 0))
    case Writing(_, began, done) =>
      if MoreToWrite(h.pc, build) then h.(pc := h.pc.(done := done + 1))
      else if Complete(build) then h.(pc := SiteBuilt, built := Some(began))
      else h.(pc := Failing)
    case SiteBuilt => h.(pc := if github then Pushing else Pushed)
    case Pushing => h.(pc := if ok then Pushed else Failing)
    case Pushed => h.(pc := if ok then Closing else Failing)
    case Failing => h.(pc := Closing)
    case _ => h
  }

  /** The next action of a worker, given what the generator does for it;
      `ok` says whether the call it makes outside the process succeeds. */
  function Worked(s: State, id: Id, ok: bool, year: int, build: Attempt): State
    requires id in s.holders
  {
    var h := s.holders[id];
    if h.pc.Closing? then Released(s, id)
    else
      s.(rows := RowsAfter(s.rows, id, h.pc, s.github, ok),
         disk := StoreAfter(s.disk, id, h, build),
         holders := s.holders[id := HolderAfter(h, s.snapshots, s.github, ok, year, build)])
  }

  function Next(s: State, step: Step): State
    requires Enabled(s, step)
  {
    match step
    case Tick(delay) => s.(now := s.now + delay)
    case Janitor => s.(cache := Cache.Step(s.cache, Sweep, s.now).0)
    case OtherCacheUse(op) => s.(cache := Cache.Step(s.cache, op, s.now).0)
    case Edit(website, draft) => s.(drafts := s.drafts[website := draft])
    case TakeSnapshot(website, newID) =>
      s.(snapshots := s.snapshots[newID := SnapshotRow(website, s.drafts[website])])
    case Publish(newID, snapshot) => LockTaken(s, newID, s.snapshots[snapshot].website, snapshot)
    case Rollback(newID, target) =>
      LockTaken(s, newID, s.rows.deployments[target].website, s.rows.deployments[target].snapshot)
    case InsertRow(id, ok) =>
      var h := s.holders[id];
      if ok then
        s.(rows := s.rows.(deployments := s.rows.deployments[id := Deployment(h.website, h.snapshot, Queued, false)]),
           holders := s.holders[id := h.(pc := Started)])
      else Released(s, id)
    case Work(id, ok, year) => Worked(s, id, ok, year, BuildFor(s.holders[id], year))
    case Panic(id) => s.(holders := s.holders[id := s.holders[id].(pc := Failing)])
  }

  function Initial(github: bool, now: int): State {
    State(github, now, map[], map[], map[], Rows(map[], multiset{}, {}), SiteStore(map[], map[]), map[], {})
  }

  // ---- Runs ----

  ghost predicate Reaches(s: State, steps: seq<Step>, t: State)
    decreases |steps|
  {
    if steps == [] then s == t
    else Enabled(s, steps[0]) && Reaches(Next(s, steps[0]), steps[1..], t)
  }

  /** Every holder still has its lock's lifetime: the hypothesis that workers end within lockTTL. */
  ghost predicate Timely(s: State) {
    forall id :: id in s.holders ==> s.now <= s.holders[id].since + LOCK_TTL
  }

  ghost predicate TimelyReaches(s: State, steps: seq<Step>, t: State)
    decreases |steps|
  {
    if steps == [] then s == t
    else
      && Enabled(s, steps[0])
      && Timely(Next(s, steps[0]))
      && TimelyReaches(Next(s, steps[0]), steps[1..], t)
  }
}
