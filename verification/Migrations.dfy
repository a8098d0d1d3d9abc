/** Applying schema migrations once, in order, from any number of processes (internal/db/db.go). */
module Migrations {
  import Ordered
  import opened Sitemap

  type Id = string

  // ---- Concurrent runs ----

  /** A migrate call at file `pos`: before its query, or in a transaction that found the file unrecorded. */
  datatype Run = Querying(pos: nat) | Applying(pos: nat) | Returned(ok: bool)

  /** `applied` lists the rows of schema_migrations as they were committed. */
  datatype State = State(applied: seq<string>, runs: map<Id, Run>)

  datatype Step =
    | Start(id: Id)
    | Query(id: Id, ok: bool)
    | Commit(id: Id, ok: bool)
    | Stop(id: Id)

  predicate Enabled(names: seq<string>, s: State, step: Step) {
    match step
    case Start(id) => id !in s.runs
    case Query(id, _) => id in s.runs && s.runs[id].Querying?
    case Commit(id, _) => id in s.runs && s.runs[id].Applying? && s.runs[id].pos < |names|
    case Stop(id) => id in s.runs
  }

  /** The query of the next file; with no file left, migrate returns nil. */
  function Queried(names: seq<string>, applied: seq<string>, pos: nat, ok: bool): Run {
    if pos >= |names| then Returned(true)
    else if !ok then Returned(false)
    else if names[pos] in applied then Querying(pos + 1)
    else Applying(pos)
  }

  function Next(names: seq<string>, s: State, step: Step): State
    requires Enabled(names, s, step)
  {
    match step
    case Start(id) => s.(runs := s.runs[id := Querying(0)])
    case Query(id, ok) => s.(runs := s.runs[id := Queried(names, s.applied, s.runs[id].pos, ok)])
    case Commit(id, ok) =>
      var pos := s.runs[id].pos;
      // The name is the primary key: a second insert fails, and its transaction is rolled back.
      if ok && names[pos] !in s.applied then
        State(s.applied + [names[pos]], s.runs[id := Querying(pos + 1)])
      else s.(runs := s.runs[id := Returned(false)])
    case Stop(id) => s.(runs := s.runs - {id})
  }

  ghost predicate Reaches(names: seq<string>, s: State, steps: seq<Step>, t: State)
    decreases |steps|
  {
    if steps == [] then s == t
    else Enabled(names, s, steps[0]) && Reaches(names, Next(names, s, steps[0]), steps[1..], t)
  }

  ghost predicate InOrder(names: seq<string>, applied: seq<string>) { applied <= names }

  /** No run is ahead of the table, and one that returned nil has seen every file in it. */
  ghost predicate Sound(names: seq<string>, s: State) {
    && InOrder(names, s.applied)
    && forall id :: id in s.runs ==>
         match s.runs[id]
         case Returned(ok) => ok ==> s.applied == names
         case run => run.pos <= |s.applied|
  }

  lemma RecordedBelow(names: seq<string>, applied: seq<string>, pos: nat)
    requires Ordered.Distinct(names) && InOrder(names, applied) && pos < |names|
    ensures names[pos] in applied <==> pos < |applied|
  {
  }

  lemma StepKeepsSound(names: seq<string>, s: State, step: Step)
    requires Ordered.Distinct(names) && Sound(names, s) && Enabled(names, s, step)
    ensures Sound(names, Next(names, s, step)) && s.applied <= Next(names, s, step).applied
  {
  }

  lemma {:induction false} RunKeepsSound(names: seq<string>, s: State, steps: seq<Step>, t: State)
    requires Ordered.Distinct(names) && Sound(names, s) && Reaches(names, s, steps, t)
    ensures Sound(names, t) && s.applied <= t.applied
    decreases |steps|
  {
    if steps != [] {
      StepKeepsSound(names, s, steps[0]);
      RunKeepsSound(names, Next(names, s, steps[0]), steps[1..], t);
    }
  }

  /** However many processes migrate and wherever they stop: every file is committed at most once, in lexical order,
      with no gap, and a call that returned nil has left none out. */
  lemma MigrationsApplyOnce(entries: seq<string>, names: seq<string>, steps: seq<Step>, s: State)
    requires Ordered.Distinct(entries) && names == Sorted(entries) && Reaches(names, State([], map[]), steps, s)
    ensures Ordered.Distinct(s.applied) && InLexicalOrder(names) && multiset(names) == multiset(entries)
    ensures |s.applied| <= |names| && s.applied == names[..|s.applied|]
    ensures forall id :: id in s.runs && s.runs[id] == Returned(true) ==> s.applied == names
  {
    SortedIsDistinct(entries);
    SortedIsLexical(entries);
    RunKeepsSound(names, State([], map[]), steps, s);
  }

  // ---- The loop of the source ----

  function Further(a: seq<string>, b: seq<string>): seq<string> { if |a| >= |b| then a else b }

  /** The first file at which a statement fails; the files before it are in. */
  ghost predicate StoppedAt(names: seq<string>, faults: set<string>, k: nat, before: seq<string>, after: seq<string>)
    requires k < |names|
  {
    && names[k] in faults
    && (forall i :: 0 <= i < k ==> names[i] !in faults)
    && after == Further(before, names[..k])
  }

  class Database {
    var applied: seq<string>

    /** `faults` are the files at which a statement fails. */
    method Migrate(entries: seq<string>, faults: set<string>) returns (ok: bool)
      requires Ordered.Distinct(entries) && InOrder(Sorted(entries), applied)
      modifies this
      ensures ok <==> forall name :: name in entries ==> name !in faults
      ensures ok ==> applied == Sorted(entries)
      ensures InLexicalOrder(applied) && (ok ==> multiset(applied) == multiset(entries))
      ensures !ok ==> exists k :: 0 <= k < |Sorted(entries)| && StoppedAt(Sorted(entries), faults, k, old(applied), applied)
    {
      var names := Sorted(entries);
      SortedIsDistinct(entries);
      SortedIsLexical(entries);
      for pos := 0 to |names|
        invariant forall i :: 0 <= i < pos ==> names[i] !in faults
        invariant applied == Further(old(applied), names[..pos])
      {
        var name := names[pos];
        RecordedBelow(names, applied, pos);
        if name in faults {
          assert StoppedAt(names, faults, pos, old(applied), applied);
          return false;
        }
        if name !in applied {
          applied := applied + [name];
        }
      }
      return true;
    }
  }

  lemma SortedIsDistinct(entries: seq<string>)
    requires Ordered.Distinct(entries)
    ensures Ordered.Distinct(Sorted(entries)) && IsSorted(Sorted(entries))
    ensures forall x :: x in Sorted(entries) <==> x in entries
  {
    SortedIsSorted(entries);
    var names := Sorted(entries);
    forall x ensures x in names <==> x in entries {
      assert x in multiset(names) <==> x in multiset(entries);
    }
    forall i, j | 0 <= i < j < |names| ensures names[i] != names[j] {
      if names[i] == names[j] {
        TwiceCounts(names, i, j);
        OnceCounts(entries, names[i]);
      }
    }
  }

  lemma TwiceCounts(s: seq<string>, i: nat, j: nat)
    requires i < j < |s| && s[i] == s[j]
    ensures multiset(s)[s[i]] >= 2
  {
    assert s == s[..i] + [s[i]] + s[i + 1..j] + [s[j]] + s[j + 1..];
  }

  lemma {:induction false} OnceCounts(s: seq<string>, x: string)
    requires Ordered.Distinct(s)
    ensures multiset(s)[x] <= 1
  {
    if s != [] {
      OnceCounts(s[1..], x);
      assert s == [s[0]] + s[1..];
      assert s[0] !in s[1..];
    }
  }
}
