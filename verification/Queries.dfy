/** ORDER BY sort_order, created_at and COALESCE(MAX(sort_order), -1) + 1, as the database evaluates them. */
module Queries {
  import opened Ordered

  /** Ties are left in any order. */
  method OrderBy<T>(t: Table<T>, rows: set<Id>) returns (ids: seq<Id>)
    requires rows <= t.Keys
    ensures Distinct(ids) && InOrder(t, ids)
    ensures forall id :: id in ids <==> id in rows
  {
    ids := [];
    var left := rows;
    while left != {}
      invariant left <= rows
      invariant Distinct(ids) && InOrder(t, ids)
      invariant forall id :: id in ids <==> id in rows - left
    {
      var id :| id in left;
      left := left - {id};
      ids := InsertByOrder(t, ids, id);
    }
  }

  method InsertByOrder<T>(t: Table<T>, ids: seq<Id>, id: Id) returns (r: seq<Id>)
    requires id in t && id !in ids && Distinct(ids) && InOrder(t, ids)
    ensures Distinct(r) && InOrder(t, r)
    ensures forall x :: x in r <==> x in ids || x == id
  {
    var k := 0;
    while k < |ids| && Before(t[ids[k]], t[id])
      invariant 0 <= k <= |ids|
      invariant forall i :: 0 <= i < k ==> Before(t[ids[i]], t[id])
    {
      k := k + 1;
    }
    InsertedInOrder(t, ids, id, k);
    r := ids[..k] + [id] + ids[k..];
  }

  lemma InsertedInOrder<T>(t: Table<T>, ids: seq<Id>, id: Id, k: nat)
    requires k <= |ids| && id in t && id !in ids && Distinct(ids) && InOrder(t, ids)
    requires forall i :: 0 <= i < k ==> Before(t[ids[i]], t[id])
    requires k < |ids| ==> !Before(t[ids[k]], t[id])
    ensures var r := ids[..k] + [id] + ids[k..];
            Distinct(r) && InOrder(t, r) && forall x :: x in r <==> x in ids || x == id
  {
  }

  method ListRows<T>(t: Table<T>, parent: Id, tenant: Id) returns (ids: seq<Id>)
    ensures IsListing(t, parent, tenant, ids)
  {
    ids := OrderBy(t, set id | id in t && Belongs(t, parent, tenant, id));
  }

  method ListVisibleRows<T>(t: Table<T>, parent: Id, tenant: Id) returns (ids: seq<Id>)
    ensures IsVisibleListing(t, parent, tenant, ids)
  {
    ids := OrderBy(t, set id | id in t && Belongs(t, parent, tenant, id) && t[id].visible);
  }

  method NextOrder<T>(t: Table<T>, parent: Id) returns (order: int)
    ensures IsNextOrder(t, parent, order)
  {
    var rows := set id | id in t && t[id].parent == parent;
    assert forall id :: id in t && t[id].parent == parent ==> id in rows;
    if rows == {} {
      return 0;
    }
    var best :| best in rows;
    var left := rows;
    while left != {}
      invariant left <= rows && best in rows
      invariant forall id :: id in rows - left ==> t[id].order <= t[best].order
    {
      var id :| id in left;
      left := left - {id};
      if t[id].order > t[best].order {
        best := id;
      }
    }
    order := t[best].order + 1;
  }
}
