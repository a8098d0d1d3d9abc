/** The life of a deployment row, in every run: no assumption about time or the lock (internal/publish/publisher.go). */
module PublishLifecycle {
  import opened Site
  import opened PublishProtocol

  /** The highest rank the row can have reached while its worker is at a point. */
  function RankBound(pc: Pc): nat {
    match pc
    case Started => 0
    case Pushing => 2
    case Pushed => 2
    case Failing => 2
    case Closing => 3
    case _ => 1
  }

  /** A holder and its row: no row yet, a row in progress, or a row whose last write has been tried. */
  ghost predicate HolderOk(rows: Rows, id: Id, h: Holder) {
    if h.pc.Locked? then id !in rows.deployments
    else
      && id in rows.deployments
      && rows.deployments[id].website == h.website
      && rows.deployments[id].snapshot == h.snapshot
      && rows.deployments[id].status.Rank() <= RankBound(h.pc)
      && (!h.pc.Closing? ==> rows.failCalls[id] == 0)
  }

  /** completed_at is set exactly in terminal states; fail ran at most once, and never on a succeeded deployment. */
  ghost predicate RowOk(rows: Rows, id: Id) {
    && rows.failCalls[id] <= 1
    && (id in rows.lostFailures ==> rows.failCalls[id] == 1)
    && (id !in rows.deployments ==> rows.failCalls[id] == 0)
    && (id in rows.deployments ==>
          var row := rows.deployments[id];
          && (row.completed <==> row.status.Terminal())
          && (row.status.Failed? <==> rows.failCalls[id] == 1 && id !in rows.lostFailures)
          && (row.status.Succeeded? ==> rows.failCalls[id] == 0))
  }

  /** Once its worker is done, a deployment is in a terminal state, unless the write of fail was lost. */
  ghost predicate DoneOk(rows: Rows, id: Id) {
    id in rows.deployments ==> (rows.deployments[id].status.Terminal() <==> id !in rows.lostFailures)
  }

  predicate Busy(s: State, id: Id) { id in s.holders && !s.holders[id].pc.Closing? }

  ghost predicate LifeInv(s: State) {
    && (forall id :: id in s.holders ==> HolderOk(s.rows, id, s.holders[id]))
    && (forall id :: RowOk(s.rows, id))
    && s.rows.deployments.Keys <= s.issued
    && s.holders.Keys <= s.issued
    && (forall id :: !Busy(s, id) ==> DoneOk(s.rows, id))
  }

  /** Row contents never change, the status never goes back, and terminal states stay. */
  ghost predicate RowAdvances(r: Rows, r': Rows, id: Id) {
    id in r.deployments ==>
      && id in r'.deployments
      && r'.deployments[id].website == r.deployments[id].website
      && r'.deployments[id].snapshot == r.deployments[id].snapshot
      && r.deployments[id].status.Rank() <= r'.deployments[id].status.Rank()
      && (r.deployments[id].status.Terminal() ==> r'.deployments[id] == r.deployments[id])
  }

  ghost predicate RowsAdvance(r: Rows, r': Rows) {
    forall id :: RowAdvances(r, r', id)
  }

  ghost predicate SameRow(r: Rows, r': Rows, id: Id) {
    && (id in r.deployments <==> id in r'.deployments)
    && (id in r.deployments ==> r.deployments[id] == r'.deployments[id])
    && r.failCalls[id] == r'.failCalls[id]
    && (id in r.lostFailures <==> id in r'.lostFailures)
  }

  // ---- One action on its own row ----

  lemma ActionKeepsRow(rows: Rows, id: Id, h: Holder, h': Holder, github: bool, ok: bool)
    requires HolderOk(rows, id, h) && RowOk(rows, id) && !h.pc.Locked? && !h.pc.Closing?
    requires h'.website == h.website && h'.snapshot == h.snapshot && Follows(h.pc, h'.pc, github, ok)
    ensures var r := RowsAfter(rows, id, h.pc, github, ok);
            && HolderOk(r, id, h')
            && RowOk(r, id)
            && (h'.pc.Closing? ==> DoneOk(r, id))
            && RowAdvances(rows, r, id)
            && forall other :: other != id ==> SameRow(rows, r, other)
  {
  }

  /** What the table needs to know about the control flow of a worker. */
  predicate Follows(pc: Pc, pc': Pc, github: bool, ok: bool) {
    && !pc'.Locked?
    && (pc.Failing? ==> pc'.Closing?)
    && (pc.Pushed? ==> if ok then pc'.Closing? else pc'.Failing?)
    && (pc.SiteBuilt? && github ==> pc'.Pushing?)
    && (pc'.Closing? ==> pc.Failing? || pc.Pushed?)
    && (pc.Started? ==> RankBound(pc') >= 1)
    && RankBound(pc) <= RankBound(pc')
  }

  /** A step that concerns one deployment only. */
  lemma OwnRowOnly(s: State, t: State, id: Id)
    requires LifeInv(s)
    requires t.holders - {id} == s.holders - {id}
    requires s.issued <= t.issued && (id in t.rows.deployments || id in t.holders ==> id in t.issued)
    requires forall other :: other != id ==> SameRow(s.rows, t.rows, other)
    requires id in t.holders ==> HolderOk(t.rows, id, t.holders[id])
    requires RowOk(t.rows, id) && (!Busy(t, id) ==> DoneOk(t.rows, id))
    requires RowAdvances(s.rows, t.rows, id)
    ensures LifeInv(t) && RowsAdvance(s.rows, t.rows)
  {
    forall other | other != id
      ensures other in t.holders <==> other in s.holders
      ensures other in t.holders ==> t.holders[other] == s.holders[other]
      ensures RowOk(t.rows, other) && RowAdvances(s.rows, t.rows, other)
      ensures !Busy(t, other) ==> DoneOk(t.rows, other)
      ensures other in t.rows.deployments ==> other in t.issued
    {
      assert other in t.holders <==> other in t.holders - {id};
      assert other in s.holders <==> other in s.holders - {id};
      assert other in t.holders ==> t.holders[other] == (t.holders - {id})[other];
      assert SameRow(s.rows, t.rows, other) && RowOk(s.rows, other);
      assert !Busy(s, other) ==> DoneOk(s.rows, other);
    }
    forall other | other in t.holders && other != id ensures HolderOk(t.rows, other, t.holders[other]) {
      assert HolderOk(s.rows, other, s.holders[other]) && SameRow(s.rows, t.rows, other);
    }
  }

  // ---- Steps ----

  lemma HolderFollows(
    h: Holder, snapshots: map<Id, SnapshotRow>, github: bool, ok: bool, year: int, build: Attempt)
    requires !h.pc.Locked? && !h.pc.Closing?
    ensures Follows(h.pc, HolderAfter(h, snapshots, github, ok, year, build).pc, github, ok)
  {
  }

  lemma WorkKeepsLife(s: State, id: Id, ok: bool, year: int, build: Attempt)
    requires LifeInv(s) && id in s.holders && !s.holders[id].pc.Locked? && !s.holders[id].pc.Closing?
    ensures LifeInv(Worked(s, id, ok, year, build)) && RowsAdvance(s.rows, Worked(s, id, ok, year, build).rows)
  {
    var h := s.holders[id];
    var h' := HolderAfter(h, s.snapshots, s.github, ok, year, build);
    assert HolderOk(s.rows, id, h) && RowOk(s.rows, id);
    HolderFollows(h, s.snapshots, s.github, ok, year, build);
    ActionKeepsRow(s.rows, id, h, h', s.github, ok);
    OwnRowOnly(s, Worked(s, id, ok, year, build), id);
  }

  lemma ReleaseKeepsLife(s: State, id: Id)
    requires LifeInv(s) && id in s.holders && s.holders[id].pc.Closing?
    ensures LifeInv(Released(s, id)) && RowsAdvance(s.rows, Released(s, id).rows)
  {
  }

  lemma PanicKeepsLife(s: State, id: Id)
    requires LifeInv(s) && Enabled(s, Panic(id))
    ensures LifeInv(Next(s, Panic(id))) && RowsAdvance(s.rows, Next(s, Panic(id)).rows)
  {
  }

  lemma InsertKeepsLife(s: State, id: Id, ok: bool)
    requires LifeInv(s) && Enabled(s, InsertRow(id, ok))
    ensures LifeInv(Next(s, InsertRow(id, ok))) && RowsAdvance(s.rows, Next(s, InsertRow(id, ok)).rows)
  {
    assert HolderOk(s.rows, id, s.holders[id]) && RowOk(s.rows, id);
    OwnRowOnly(s, Next(s, InsertRow(id, ok)), id);
  }

  lemma LockKeepsLife(s: State, newID: Id, website: Id, snapshot: Id)
    requires LifeInv(s) && Unused(s, newID)
    ensures LifeInv(LockTaken(s, newID, website, snapshot))
    ensures RowsAdvance(s.rows, LockTaken(s, newID, website, snapshot).rows)
  {
  }

  lemma StepKeepsLife(s: State, step: Step)
    requires LifeInv(s) && Enabled(s, step)
    ensures LifeInv(Next(s, step)) && RowsAdvance(s.rows, Next(s, step).rows)
  {
    match step
    case Publish(newID, snapshot) => LockKeepsLife(s, newID, s.snapshots[snapshot].website, snapshot);
    case Rollback(newID, target) =>
      LockKeepsLife(s, newID, s.rows.deployments[target].website, s.rows.deployments[target].snapshot);
    case InsertRow(id, ok) => InsertKeepsLife(s, id, ok);
    case Panic(id) => PanicKeepsLife(s, id);
    case Work(id, ok, year) =>
      if s.holders[id].pc.Closing? {
        ReleaseKeepsLife(s, id);
      } else {
        WorkKeepsLife(s, id, ok, year, BuildFor(s.holders[id], year));
      }
    case _ => OwnRowOnly(s, Next(s, step), "");
  }

  /** The whole life of every deployment: over every run, ranks never fall, terminal rows are final, and the
      invariant (completed_at, at most one call of fail, a terminal end unless its write was lost) holds throughout. */
  lemma {:induction false} DeploymentLifecycle(s: State, steps: seq<Step>, t: State)
    requires LifeInv(s) && Reaches(s, steps, t)
    ensures LifeInv(t)
    ensures RowsAdvance(s.rows, t.rows)
    decreases |steps|
  {
    if steps != [] {
      var mid := Next(s, steps[0]);
      StepKeepsLife(s, steps[0]);
      DeploymentLifecycle(mid, steps[1..], t);
      forall id ensures RowAdvances(s.rows, t.rows, id) {
        assert RowAdvances(s.rows, mid.rows, id) && RowAdvances(mid.rows, t.rows, id);
      }
    }
  }

  lemma InitialLife(github: bool, start: int)
    ensures LifeInv(Initial(github, start))
  {
  }
}
