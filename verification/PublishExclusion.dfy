/** Timed mutual exclusion of publishes per website (internal/publish/publisher.go over internal/cache/cache.go). */
module PublishExclusion {
  import opened Site
  import opened Cache
  import opened PublishProtocol

  /** The entry a holder put into the cache and has not removed. */
  function OwnEntry(h: Holder): Entry { Entry(h.snapshot, h.since + LOCK_TTL) }

  ghost predicate Exclusive(s: State) {
    forall a, b :: a in s.holders && b in s.holders && s.holders[a].website == s.holders[b].website ==> a == b
  }

  ghost predicate HoldersOwnLocks(s: State) {
    forall id :: id in s.holders ==>
      LockKey(s.holders[id].website) in s.cache && s.cache[LockKey(s.holders[id].website)] == OwnEntry(s.holders[id])
  }

  ghost predicate HasHolder(s: State, website: Id) {
    exists id :: id in s.holders && s.holders[id].website == website
  }

  ghost predicate LocksHaveHolders(s: State) {
    forall website: Id :: LockKey(website) in s.cache ==> HasHolder(s, website)
  }

  ghost predicate LockInv(s: State) {
    Exclusive(s) && HoldersOwnLocks(s) && LocksHaveHolders(s) && s.holders.Keys <= s.issued
  }

  lemma LockKeyIsInjective(a: Id, b: Id)
    requires LockKey(a) == LockKey(b)
    ensures a == b
  {
    assert LockKey(a)[|LOCK_PREFIX|..] == a && LockKey(b)[|LOCK_PREFIX|..] == b;
  }

  /** Steps that leave the cache and the identity of every holder alone. */
  lemma UntouchedLocks(s: State, t: State)
    requires LockInv(s) && t.cache == s.cache && t.issued == s.issued && t.holders.Keys == s.holders.Keys
    requires forall id :: id in s.holders ==>
               && t.holders[id].website == s.holders[id].website
               && t.holders[id].snapshot == s.holders[id].snapshot
               && t.holders[id].since == s.holders[id].since
    ensures LockInv(t)
  {
  }

  lemma LockTakenKeepsLocks(s: State, newID: Id, website: Id, snapshot: Id)
    requires LockInv(s) && Timely(s) && Unused(s, newID)
    ensures LockInv(LockTaken(s, newID, website, snapshot))
  {
    var t := LockTaken(s, newID, website, snapshot);
    if Live(s.cache, LockKey(website), s.now).Some? {
      assert t == s;
    } else {
      assert LockKey(website) !in s.cache by {
        assert LockKey(website) in s.cache ==> HasHolder(s, website);
      }
      assert !HasHolder(s, website);
      forall id | id in s.holders ensures LockKey(s.holders[id].website) != LockKey(website) {
        if LockKey(s.holders[id].website) == LockKey(website) {
          LockKeyIsInjective(s.holders[id].website, website);
        }
      }
      forall w: Id | LockKey(w) in t.cache ensures HasHolder(t, w) {
        if LockKey(w) == LockKey(website) {
          LockKeyIsInjective(w, website);
          assert newID in t.holders;
        } else {
          assert HasHolder(s, w);
          var id :| id in s.holders && s.holders[id].website == w;
          assert id in t.holders && t.holders[id] == s.holders[id];
        }
      }
    }
  }

  lemma ReleasedKeepsLocks(s: State, id: Id)
    requires LockInv(s) && id in s.holders
    ensures LockInv(Released(s, id))
  {
    var t := Released(s, id);
    var website := s.holders[id].website;
    forall other | other in t.holders ensures LockKey(t.holders[other].website) != LockKey(website) {
      if LockKey(t.holders[other].website) == LockKey(website) {
        LockKeyIsInjective(t.holders[other].website, website);
      }
    }
    forall w: Id | LockKey(w) in t.cache ensures HasHolder(t, w) {
      assert HasHolder(s, w);
      var other :| other in s.holders && s.holders[other].website == w;
      assert other in t.holders && t.holders[other] == s.holders[other];
    }
  }

  lemma SweptKeepsLocks(s: State)
    requires LockInv(s) && Timely(s)
    ensures LockInv(Next(s, Janitor))
  {
  }

  lemma OtherUseKeepsLocks(s: State, op: Op)
    requires LockInv(s) && Enabled(s, OtherCacheUse(op))
    ensures LockInv(Next(s, OtherCacheUse(op)))
  {
  }

  lemma WorkKeepsLocks(s: State, id: Id, ok: bool, year: int, build: Attempt)
    requires LockInv(s) && id in s.holders && !s.holders[id].pc.Locked?
    ensures LockInv(Worked(s, id, ok, year, build))
  {
    if s.holders[id].pc.Closing? {
      ReleasedKeepsLocks(s, id);
    } else {
      UntouchedLocks(s, Worked(s, id, ok, year, build));
    }
  }

  lemma EnvironmentKeepsLocks(s: State, step: Step)
    requires LockInv(s) && Timely(s) && Enabled(s, step)
    requires step.Tick? || step.Janitor? || step.OtherCacheUse? || step.Edit? || step.TakeSnapshot? || step.Panic?
    ensures LockInv(Next(s, step))
  {
    if step.Janitor? {
      SweptKeepsLocks(s);
    } else if step.OtherCacheUse? {
      OtherUseKeepsLocks(s, step.op);
    } else {
      UntouchedLocks(s, Next(s, step));
    }
  }

  lemma CallerKeepsLocks(s: State, step: Step)
    requires LockInv(s) && Timely(s) && Enabled(s, step)
    requires step.Publish? || step.Rollback? || step.InsertRow?
    ensures LockInv(Next(s, step))
  {
    match step
    case Publish(newID, snapshot) => LockTakenKeepsLocks(s, newID, s.snapshots[snapshot].website, snapshot);
    case Rollback(newID, target) =>
      LockTakenKeepsLocks(s, newID, s.rows.deployments[target].website, s.rows.deployments[target].snapshot);
    case InsertRow(id, ok) =>
      if ok {
        UntouchedLocks(s, Next(s, step));
      } else {
        ReleasedKeepsLocks(s, id);
      }
  }

  lemma StepKeepsLocks(s: State, step: Step)
    requires LockInv(s) && Timely(s) && Enabled(s, step)
    ensures LockInv(Next(s, step))
  {
    if step.Work? {
      WorkKeepsLocks(s, step.id, step.ok, step.year, BuildFor(s.holders[step.id], step.year));
    } else if step.Publish? || step.Rollback? || step.InsertRow? {
      CallerKeepsLocks(s, step);
    } else {
      EnvironmentKeepsLocks(s, step);
    }
  }

  lemma {:induction false} RunKeepsLocks(s: State, steps: seq<Step>, t: State)
    requires LockInv(s) && Timely(s) && TimelyReaches(s, steps, t)
    ensures LockInv(t) && Timely(t)
    decreases |steps|
  {
    if steps != [] {
      StepKeepsLocks(s, steps[0]);
      RunKeepsLocks(Next(s, steps[0]), steps[1..], t);
    }
  }

  /** In every run whose holders end within the lock's lifetime: one holder per website, each owning its own lock entry,
      and StartPublish is refused exactly while the website has a holder. */
  lemma MutualExclusion(github: bool, start: int, steps: seq<Step>, s: State)
    requires TimelyReaches(Initial(github, start), steps, s)
    ensures Exclusive(s)
    ensures HoldersOwnLocks(s)
    ensures forall website :: Live(s.cache, LockKey(website), s.now).Some? <==> HasHolder(s, website)
  {
    RunKeepsLocks(Initial(github, start), steps, s);
  }

  /** The unconditional Delete of a worker removes the entry that worker put there, and nothing else. */
  lemma ReleaseRemovesOwnEntry(s: State, id: Id)
    requires LockInv(s) && id in s.holders
    ensures var key := LockKey(s.holders[id].website);
            && key in s.cache
            && s.cache[key] == OwnEntry(s.holders[id])
            && Released(s, id).cache == s.cache - {key}
  {
  }

  /** The hypothesis is needed: as soon as a holder outlives its lock, the next publish of the website joins it. */
  lemma OverstayBreaksExclusion(s: State, id: Id, newID: Id, snapshot: Id)
    requires LockInv(s) && id in s.holders
    requires Enabled(s, Publish(newID, snapshot)) && s.snapshots[snapshot].website == s.holders[id].website
    ensures Exclusive(Next(s, Publish(newID, snapshot))) <==> s.now <= s.holders[id].since + LOCK_TTL
  {
    var t := Next(s, Publish(newID, snapshot));
    assert LockKey(s.holders[id].website) in s.cache;
    if s.now > s.holders[id].since + LOCK_TTL {
      assert id in t.holders && newID in t.holders && t.holders[id].website == t.holders[newID].website;
    } else {
      assert t.holders == s.holders;
    }
  }

  /** And then the first of the two workers to finish removes the lock of the other. */
  lemma OverstayedDeleteRemovesForeignLock(s: State, id: Id, newID: Id, snapshot: Id)
    requires LockInv(s) && id in s.holders && s.now > s.holders[id].since + LOCK_TTL
    requires Enabled(s, Publish(newID, snapshot)) && s.snapshots[snapshot].website == s.holders[id].website
    ensures var t := Next(s, Publish(newID, snapshot));
            && t.cache[LockKey(t.holders[newID].website)] == OwnEntry(t.holders[newID])
            && LockKey(t.holders[newID].website) !in Released(t, id).cache
            && newID in Released(t, id).holders
  {
  }
}
