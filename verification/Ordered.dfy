/** Rows with sort_order and created_at, listed by sorting: sections of a page and pages of a website
    (internal/httpapi/handlers_pages.go). */
module Ordered {
  type Id = string

  datatype Row<+T> = Row(tenant: Id, parent: Id, order: int, created: int, visible: bool, data: T)

  type Table<+T> = map<Id, Row<T>>

  // ---- Listings: every result that ORDER BY sort_order, created_at may give ----

  predicate Before<T>(r: Row<T>, q: Row<T>) {
    r.order < q.order || (r.order == q.order && r.created <= q.created)
  }

  predicate Belongs<T>(t: Table<T>, parent: Id, tenant: Id, id: Id) {
    id in t && t[id].parent == parent && t[id].tenant == tenant
  }

  ghost predicate Distinct(ids: seq<Id>) {
    forall i, j :: 0 <= i < j < |ids| ==> ids[i] != ids[j]
  }

  ghost predicate InOrder<T>(t: Table<T>, ids: seq<Id>) {
    && (forall id :: id in ids ==> id in t)
    && (forall i, j :: 0 <= i < j < |ids| ==> Before(t[ids[i]], t[ids[j]]))
  }

  ghost predicate IsListing<T>(t: Table<T>, parent: Id, tenant: Id, ids: seq<Id>) {
    && Distinct(ids)
    && (forall id :: id in ids <==> Belongs(t, parent, tenant, id))
    && InOrder(t, ids)
  }

  lemma FirstBelongs<T>(t: Table<T>, parent: Id, tenant: Id, ids: seq<Id>)
    requires IsListing(t, parent, tenant, ids)
    ensures ids == [] || Belongs(t, parent, tenant, ids[0])
  {
  }

  /** No two rows that the query cannot tell apart: only such rows leave a listing open. */
  ghost predicate Separated<T>(t: Table<T>, ids: seq<Id>) {
    forall a, b :: a in ids && b in ids && a in t && b in t && Before(t[a], t[b]) && Before(t[b], t[a]) ==> a == b
  }

  lemma FirstIsMember(ids: seq<Id>)
    ensures ids != [] ==> ids[0] in ids
  {
  }

  lemma SameFirst<T>(t: Table<T>, l: seq<Id>, k: seq<Id>)
    requires (forall id :: id in l <==> id in k) && l != []
    requires InOrder(t, l) && InOrder(t, k) && Separated(t, l)
    ensures k != [] && l[0] == k[0]
  {
    assert l[0] in k && k[0] in l;
    var i :| 0 <= i < |k| && k[i] == l[0];
    var j :| 0 <= j < |l| && l[j] == k[0];
    assert Before(t[l[0]], t[k[0]]) && Before(t[k[0]], t[l[0]]);
  }

  lemma RestMembers(ids: seq<Id>)
    requires ids != [] && Distinct(ids)
    ensures forall id :: id in ids[1..] <==> id in ids && id != ids[0]
  {
    assert ids == [ids[0]] + ids[1..];
  }

  lemma {:induction false} ListingIsUnique<T>(t: Table<T>, l: seq<Id>, k: seq<Id>)
    requires Distinct(l) && Distinct(k) && (forall id :: id in l <==> id in k)
    requires InOrder(t, l) && InOrder(t, k) && Separated(t, l)
    ensures l == k
  {
    FirstIsMember(k);
    if l != [] {
      SameFirst(t, l, k);
      RestMembers(l);
      RestMembers(k);
      ListingIsUnique(t, l[1..], k[1..]);
      assert l == [l[0]] + l[1..] && k == [k[0]] + k[1..];
    }
  }

  // ---- Sequence operations on ids ----

  function Without(ids: seq<Id>, id: Id): seq<Id> {
    if ids == [] then []
    else (if ids[0] == id then [] else [ids[0]]) + Without(ids[1..], id)
  }

  /** The ids of a set, in the order of a sequence. */
  function Kept(ids: seq<Id>, keep: set<Id>): seq<Id> {
    if ids == [] then []
    else (if ids[0] in keep then [ids[0]] else []) + Kept(ids[1..], keep)
  }

  lemma {:induction false} WithoutIsKept(ids: seq<Id>, id: Id, keep: set<Id>)
    requires forall x :: x in ids ==> (x in keep <==> x != id)
    ensures Without(ids, id) == Kept(ids, keep)
  {
    if ids != [] {
      WithoutIsKept(ids[1..], id, keep);
    }
  }

  /** Keeping some ids of a listing keeps it distinct and in order. */
  lemma {:induction false} KeptListing<T>(t: Table<T>, ids: seq<Id>, keep: set<Id>)
    requires Distinct(ids) && InOrder(t, ids)
    ensures Distinct(Kept(ids, keep)) && InOrder(t, Kept(ids, keep))
    ensures forall id :: id in Kept(ids, keep) <==> id in ids && id in keep
  {
    if ids != [] {
      KeptListing(t, ids[1..], keep);
      var rest := Kept(ids[1..], keep);
      forall id | id in rest ensures Before(t[ids[0]], t[id]) && id != ids[0] {
        var j :| 0 <= j < |ids[1..]| && ids[1..][j] == id;
        assert ids[j + 1] == id;
      }
      assert ids == [ids[0]] + ids[1..];
    }
  }

  // ---- Changes that a listing does not see ----

  ghost predicate SameRows<T>(t: Table<T>, u: Table<T>, parent: Id, tenant: Id) {
    forall id :: (Belongs(t, parent, tenant, id) <==> Belongs(u, parent, tenant, id))
      && (Belongs(t, parent, tenant, id) ==> t[id].order == u[id].order && t[id].created == u[id].created)
  }

  lemma SameRowsSameListings<T>(t: Table<T>, u: Table<T>, parent: Id, tenant: Id, ids: seq<Id>)
    requires SameRows(t, u, parent, tenant)
    ensures IsListing(t, parent, tenant, ids) <==> IsListing(u, parent, tenant, ids)
  {
  }

  // ---- INSERT: sort_order is the maximum plus one ----

  /** COALESCE(MAX(sort_order), -1) + 1 over the rows of a parent. */
  ghost predicate IsNextOrder<T>(t: Table<T>, parent: Id, order: int) {
    && (forall id :: id in t && t[id].parent == parent ==> t[id].order < order)
    && ((exists id :: id in t && t[id].parent == parent && t[id].order == order - 1)
        || (order == 0 && forall id :: id in t ==> t[id].parent != parent))
  }

  lemma NextOrderExists<T>(t: Table<T>, parent: Id) returns (order: int)
    ensures IsNextOrder(t, parent, order)
  {
    order := 0;
    var rows := set id | id in t && t[id].parent == parent;
    if rows != {} {
      var best := LastRow(t, rows);
      assert forall id :: id in t && t[id].parent == parent ==> id in rows;
      order := t[best].order + 1;
    } else {
      assert forall id :: id in t ==> id in rows || t[id].parent != parent;
    }
  }

  lemma {:induction false} LastRow<T>(t: Table<T>, rows: set<Id>) returns (best: Id)
    requires rows != {} && rows <= t.Keys
    ensures best in rows && forall id :: id in rows ==> t[id].order <= t[best].order
    decreases |rows|
  {
    best :| best in rows;
    if rows != {best} {
      var rest := LastRow(t, rows - {best});
      best := if t[best].order < t[rest].order then rest else best;
    }
  }

  lemma NewRowIsLast<T>(t: Table<T>, newID: Id, row: Row<T>, ids: seq<Id>)
    requires newID !in t && IsNextOrder(t, row.parent, row.order)
    requires IsListing(t[newID := row], row.parent, row.tenant, ids)
    ensures ids != [] && ids[|ids| - 1] == newID
  {
    var u := t[newID := row];
    assert Belongs(u, row.parent, row.tenant, newID);
    var i :| 0 <= i < |ids| && ids[i] == newID;
    forall j | 0 <= j < |ids| && j != i ensures !Before(row, u[ids[j]]) {
      assert ids[j] in ids && Belongs(u, row.parent, row.tenant, ids[j]);
    }
  }

  /** Appending the new row to a listing of its parent gives a listing of the larger table. */
  lemma AppendedIsListing<T>(t: Table<T>, newID: Id, row: Row<T>, l: seq<Id>)
    requires newID !in t && IsNextOrder(t, row.parent, row.order)
    requires IsListing(t, row.parent, row.tenant, l)
    ensures IsListing(t[newID := row], row.parent, row.tenant, l + [newID])
  {
    var u, ids := t[newID := row], l + [newID];
    forall i | 0 <= i < |l| ensures ids[i] in t && ids[i] != newID && Before(t[ids[i]], row) {
      assert l[i] in l && Belongs(t, row.parent, row.tenant, l[i]);
    }
    forall id ensures id in ids <==> Belongs(u, row.parent, row.tenant, id) {
      assert id in l <==> Belongs(t, row.parent, row.tenant, id);
    }
    assert InOrder(u, ids) by {
      forall id | id in ids ensures id in u {
        assert Belongs(u, row.parent, row.tenant, id);
      }
    }
  }

  lemma ShortenedIsListing<T>(t: Table<T>, newID: Id, row: Row<T>, l: seq<Id>)
    requires newID !in t
    requires IsListing(t[newID := row], row.parent, row.tenant, l + [newID])
    ensures IsListing(t, row.parent, row.tenant, l)
  {
    var u, ids := t[newID := row], l + [newID];
    forall i | 0 <= i < |l| ensures l[i] == ids[i] && l[i] != newID && l[i] in t {
      assert ids[i] != ids[|l|];
      assert ids[i] in ids;
    }
    forall id ensures id in l <==> Belongs(t, row.parent, row.tenant, id) {
      assert id in ids <==> Belongs(u, row.parent, row.tenant, id);
    }
    forall i, j | 0 <= i < j < |l| ensures Before(t[l[i]], t[l[j]]) {
      assert Before(u[ids[i]], u[ids[j]]);
    }
  }

  /** A new row comes last in every listing of its parent, and the listings are otherwise those from before. */
  lemma CreateAppends<T>(t: Table<T>, newID: Id, row: Row<T>, ids: seq<Id>)
    requires newID !in t && IsNextOrder(t, row.parent, row.order)
    ensures IsListing(t[newID := row], row.parent, row.tenant, ids) ==> ids != [] && ids[|ids| - 1] == newID
    ensures IsListing(t, row.parent, row.tenant, ids) <==>
            IsListing(t[newID := row], row.parent, row.tenant, ids + [newID])
  {
    if IsListing(t[newID := row], row.parent, row.tenant, ids) {
      NewRowIsLast(t, newID, row, ids);
    }
    if IsListing(t[newID := row], row.parent, row.tenant, ids + [newID]) {
      ShortenedIsListing(t, newID, row, ids);
    }
    if IsListing(t, row.parent, row.tenant, ids) {
      AppendedIsListing(t, newID, row, ids);
    }
  }

  // ---- DELETE ----

  /** A listing stays one when a row is erased from table and listing. */
  lemma DeleteErases<T>(t: Table<T>, gone: Id, parent: Id, tenant: Id, ids: seq<Id>)
    requires IsListing(t, parent, tenant, ids)
    ensures IsListing(t - {gone}, parent, tenant, Without(ids, gone))
  {
    var keep := (set id | id in ids) - {gone};
    WithoutIsKept(ids, gone, keep);
    KeptListing(t, ids, keep);
    var u, l := t - {gone}, Without(ids, gone);
    forall id ensures id in l <==> Belongs(u, parent, tenant, id) {
      assert id in ids <==> Belongs(t, parent, tenant, id);
    }
  }

  // ---- UPDATE ... FROM unnest(ids) WITH ORDINALITY ----

  predicate Targeted<T>(t: Table<T>, ids: seq<Id>, parent: Id, tenant: Id, id: Id) {
    id in ids && Belongs(t, parent, tenant, id)
  }

  /** Rows of the parent that are named get the position of one of their mentions; everything else stays. */
  ghost predicate Reordered<T>(t: Table<T>, ids: seq<Id>, parent: Id, tenant: Id, u: Table<T>) {
    && u.Keys == t.Keys
    && (forall id :: Targeted(t, ids, parent, tenant, id) ==>
          0 <= u[id].order < |ids| && ids[u[id].order] == id && u[id] == t[id].(order := u[id].order))
    && (forall id :: id in t && !Targeted(t, ids, parent, tenant, id) ==> u[id] == t[id])
  }

  /** Every row of the parent is named, and none twice; other ids may be mixed in anywhere. */
  ghost predicate NamesEachOnce<T>(t: Table<T>, ids: seq<Id>, parent: Id, tenant: Id) {
    && (forall id :: Belongs(t, parent, tenant, id) ==> id in ids)
    && (forall i, j :: 0 <= i < j < |ids| && ids[i] == ids[j] ==> !Belongs(t, parent, tenant, ids[i]))
  }

  function RowsOf<T>(t: Table<T>, parent: Id, tenant: Id): set<Id> {
    set id | id in t && Belongs(t, parent, tenant, id)
  }

  /** No two rows share a sort_order: nothing is left to chance. */
  ghost predicate Strict<T>(t: Table<T>, ids: seq<Id>) {
    && (forall id :: id in ids ==> id in t)
    && (forall i, j :: 0 <= i < j < |ids| ==> t[ids[i]].order < t[ids[j]].order)
  }

  lemma StrictIsOrdered<T>(t: Table<T>, ids: seq<Id>)
    requires Strict(t, ids)
    ensures Distinct(ids) && InOrder(t, ids) && Separated(t, ids)
  {
  }

  lemma StrictFront<T>(t: Table<T>, head: Id, rest: seq<Id>)
    requires Strict(t, rest) && head in t && forall id :: id in rest ==> t[head].order < t[id].order
    ensures Strict(t, [head] + rest)
  {
  }

  /** When the kept ids are numbered by their positions, the kept sequence is in order. */
  lemma {:induction false} KeptByPosition<T>(u: Table<T>, ids: seq<Id>, keep: set<Id>, from: nat)
    requires forall p :: 0 <= p < |ids| && ids[p] in keep ==> ids[p] in u && u[ids[p]].order == from + p
    ensures Strict(u, Kept(ids, keep))
    ensures forall id :: id in Kept(ids, keep) ==> u[id].order >= from
  {
    if ids != [] {
      assert forall p :: 0 <= p < |ids[1..]| ==> ids[1..][p] == ids[p + 1];
      KeptByPosition(u, ids[1..], keep, from + 1);
      if ids[0] in keep {
        StrictFront(u, ids[0], Kept(ids[1..], keep));
      } else {
        assert [] + Kept(ids[1..], keep) == Kept(ids[1..], keep);
      }
    }
  }

  lemma {:induction false} KeptMembers(ids: seq<Id>, keep: set<Id>)
    ensures forall id :: id in Kept(ids, keep) <==> id in ids && id in keep
  {
    if ids != [] {
      KeptMembers(ids[1..], keep);
      assert ids == [ids[0]] + ids[1..];
    }
  }

  /** A reorder that names each row once leaves exactly one listing: the request without the foreign ids. */
  lemma ReorderLists<T>(t: Table<T>, ids: seq<Id>, parent: Id, tenant: Id, u: Table<T>, l: seq<Id>)
    requires Reordered(t, ids, parent, tenant, u) && NamesEachOnce(t, ids, parent, tenant)
    ensures IsListing(u, parent, tenant, l) <==> l == Kept(ids, RowsOf(t, parent, tenant))
  {
    var rows := RowsOf(t, parent, tenant);
    var k := Kept(ids, rows);
    forall p | 0 <= p < |ids| && ids[p] in rows ensures ids[p] in u && u[ids[p]].order == p {
      var id := ids[p];
      assert Targeted(t, ids, parent, tenant, id);
      assert ids[u[id].order] == ids[p];
    }
    KeptByPosition(u, ids, rows, 0);
    KeptMembers(ids, rows);
    StrictIsOrdered(u, k);
    forall id ensures Belongs(t, parent, tenant, id) <==> Belongs(u, parent, tenant, id) {
      assert Targeted(t, ids, parent, tenant, id) || id !in t || u[id] == t[id];
    }
    if IsListing(u, parent, tenant, l) {
      ListingIsUnique(u, k, l);
    }
  }

  /** A reorder touches no other page, website or tenant. */
  lemma ReorderElsewhere<T>(t: Table<T>, ids: seq<Id>, parent: Id, tenant: Id, u: Table<T>, p: Id, n: Id, l: seq<Id>)
    requires Reordered(t, ids, parent, tenant, u) && (p != parent || n != tenant)
    ensures IsListing(t, p, n, l) <==> IsListing(u, p, n, l)
  {
    forall id
      ensures Belongs(t, p, n, id) <==> Belongs(u, p, n, id)
      ensures Belongs(t, p, n, id) ==> u[id] == t[id]
    {
      assert Targeted(t, ids, parent, tenant, id) || id !in t || u[id] == t[id];
    }
    SameRowsSameListings(t, u, p, n, l);
  }

  // ---- Hidden rows ----

  /** What the snapshot query lists: the same order, visible rows only. */
  ghost predicate IsVisibleListing<T>(t: Table<T>, parent: Id, tenant: Id, ids: seq<Id>) {
    && Distinct(ids)
    && (forall id :: id in ids <==> Belongs(t, parent, tenant, id) && t[id].visible)
    && InOrder(t, ids)
  }

  function VisibleRows<T>(t: Table<T>): set<Id> {
    set id | id in t && t[id].visible
  }

  lemma VisibleListing<T>(t: Table<T>, parent: Id, tenant: Id, ids: seq<Id>)
    requires IsListing(t, parent, tenant, ids)
    ensures IsVisibleListing(t, parent, tenant, Kept(ids, VisibleRows(t)))
  {
    KeptListing(t, ids, VisibleRows(t));
    forall id ensures id in Kept(ids, VisibleRows(t)) <==> Belongs(t, parent, tenant, id) && t[id].visible {
      assert id in ids <==> Belongs(t, parent, tenant, id);
    }
  }
}
