/** The page builder's list of block cards, and the server listing it must agree with (web/admin/app.js). */
module Builder {
  import opened Results
  import opened Json
  import opened Snapshots
  import opened Ordered
  import opened Queries
  import opened Content
  import opened ContentProtocol
  import opened ContentInvariant
  import opened SnapshotBuilder
  import opened Handlers

  // ---- List operations of the drop handler ----

  /** ids.splice(at, 0, id); a position past the end means the end. */
  function Spliced(ids: seq<Id>, at: nat, id: Id): seq<Id> {
    if at <= |ids| then ids[..at] + [id] + ids[at..] else ids + [id]
  }

  function Removed(ids: seq<Id>, i: nat): seq<Id>
    requires i < |ids|
  {
    ids[..i] + ids[i + 1..]
  }

  /** What a drop of card `from` at indicator `idx` asks the server for. */
  function Dropped(ids: seq<Id>, from: nat, idx: nat): seq<Id>
    requires from < |ids|
  {
    Spliced(Removed(ids, from), if idx > from then idx - 1 else idx, ids[from])
  }

  lemma SplicedCounts(ids: seq<Id>, at: nat, id: Id)
    ensures multiset(Spliced(ids, at, id)) == multiset(ids) + multiset{id}
  {
    if at <= |ids| {
      assert ids == ids[..at] + ids[at..];
    }
  }

  lemma SplicedIsPermutation(ids: seq<Id>, at: nat, id: Id)
    requires Distinct(ids) && id !in ids
    ensures multiset(Spliced(ids, at, id)) == multiset(ids) + multiset{id}
    ensures Distinct(Spliced(ids, at, id)) && forall x :: x in Spliced(ids, at, id) <==> x in ids || x == id
  {
    SplicedCounts(ids, at, id);
    var r := Spliced(ids, at, id);
    forall x ensures x in r <==> x in ids || x == id {
      assert x in r <==> x in multiset(r);
      assert x in ids <==> x in multiset(ids);
    }
    var k := if at <= |ids| then at else |ids|;
    forall i | 0 <= i < |r| ensures r[i] == if i < k then ids[i] else if i == k then id else ids[i - 1] {
    }
  }

  lemma RemovedFrom(ids: seq<Id>, i: nat)
    requires i < |ids| && Distinct(ids)
    ensures Distinct(Removed(ids, i)) && ids[i] !in Removed(ids, i)
    ensures multiset(ids) == multiset(Removed(ids, i)) + multiset{ids[i]}
    ensures forall x :: x in ids <==> x in Removed(ids, i) || x == ids[i]
  {
    assert ids == ids[..i] + [ids[i]] + ids[i + 1..];
  }

  /** Every drop permutes the cards. */
  lemma DropPermutes(ids: seq<Id>, from: nat, idx: nat)
    requires from < |ids| && Distinct(ids)
    ensures multiset(Dropped(ids, from, idx)) == multiset(ids)
    ensures Distinct(Dropped(ids, from, idx)) && forall x :: x in Dropped(ids, from, idx) <==> x in ids
  {
    RemovedFrom(ids, from);
    SplicedIsPermutation(Removed(ids, from), if idx > from then idx - 1 else idx, ids[from]);
  }

  /** The indicator counts the other cards, so the drop lands there exactly when the card does not move down;
      a card that moves down lands one place above it. */
  lemma DropLandsAtIndicator(ids: seq<Id>, from: nat, idx: nat)
    requires from < |ids| && idx < |ids| && Distinct(ids)
    ensures Dropped(ids, from, idx) == Spliced(Removed(ids, from), idx, ids[from]) <==> idx <= from
    ensures idx > from ==> Dropped(ids, from, idx)[idx - 1] == ids[from]
  {
    RemovedFrom(ids, from);
    var others := Removed(ids, from);
    if idx > from {
      assert Dropped(ids, from, idx)[idx - 1] == ids[from];
      assert Spliced(others, idx, ids[from])[idx - 1] == others[idx - 1];
      assert others[idx - 1] in others;
    }
  }

  function Min(a: nat, b: nat): nat { if a < b then a else b }

  /** The list of before, with an id put in at a place. */
  ghost predicate InsertedAt(before: seq<Id>, id: Id, at: nat, after: seq<Id>) {
    && |after| == |before| + 1 && at <= |before| && after[at] == id
    && forall k :: 0 <= k < |before| ==> after[if k < at then k else k + 1] == before[k]
  }

  /** One element moves from one place to another; without it, the lists are the same. */
  ghost predicate MovedTo(before: seq<Id>, from: nat, at: nat, after: seq<Id>) {
    && |after| == |before| && from < |before| && at < |before| && after[at] == before[from]
    && forall k :: 0 <= k < |before| && k != from ==>
         var p := if k < from then k else k - 1; after[if p < at then p else p + 1] == before[k]
  }

  /** Where a dropped card ends up, and that the others keep their order. */
  lemma DropMovesOneCard(ids: seq<Id>, from: nat, idx: nat)
    requires from < |ids|
    ensures MovedTo(ids, from, Min(if idx > from then idx - 1 else idx, |ids| - 1), Dropped(ids, from, idx))
  {
    var others := Removed(ids, from);
    SplicedInserts(others, if idx > from then idx - 1 else idx, ids[from]);
    assert forall k :: 0 <= k < |ids| && k != from ==> others[if k < from then k else k - 1] == ids[k];
  }

  /** The card of an id goes to the indicator, or one place above it when it moves down. */
  ghost predicate CardDropped(before: seq<Id>, id: Id, idx: nat, after: seq<Id>) {
    forall from :: 0 <= from < |before| && before[from] == id ==>
      && after == Dropped(before, from, idx)
      && MovedTo(before, from, Min(if idx > from then idx - 1 else idx, |before| - 1), after)
  }

  lemma CardIsDropped(ids: seq<Id>, from: nat, id: Id, idx: nat)
    requires from < |ids| && ids[from] == id && Distinct(ids)
    ensures CardDropped(ids, id, idx, Dropped(ids, from, idx))
  {
    DropMovesOneCard(ids, from, idx);
  }

  lemma SplicedInserts(ids: seq<Id>, at: nat, id: Id)
    ensures InsertedAt(ids, id, Min(at, |ids|), Spliced(ids, at, id))
  {
  }

  lemma AddedAt(before: seq<Id>, id: Id, index: nat, placed: bool, after: seq<Id>)
    requires index <= |before|
    requires after == if placed then Spliced(before, index, id) else before + [id]
    ensures InsertedAt(before, id, if placed then index else |before|, after)
  {
    SplicedInserts(before, index, id);
  }

  // ---- The listing a reorder leads to ----

  lemma {:induction false} KeptAll(ids: seq<Id>, keep: set<Id>)
    requires forall id :: id in ids ==> id in keep
    ensures Kept(ids, keep) == ids
  {
    if ids != [] {
      KeptAll(ids[1..], keep);
    }
  }

  /** A request that permutes a listing becomes the only listing. */
  lemma PermutedListing<T>(
    t: Table<T>, u: Table<T>, parent: Id, tenant: Id, cards: seq<Id>, ids: seq<Id>)
    requires IsListing(t, parent, tenant, cards) && Distinct(ids) && (forall x :: x in ids <==> x in cards)
    requires Reordered(t, ids, parent, tenant, u) && ListsAsAsked(t, u, ids, parent, tenant)
    ensures IsListing(u, parent, tenant, ids) && Strict(u, ids)
  {
    forall id | Belongs(t, parent, tenant, id) ensures id in ids {
      assert id in cards;
    }
    assert NamesEachOnce(t, ids, parent, tenant);
    forall id | id in ids ensures id in RowsOf(t, parent, tenant) {
      assert id in cards;
    }
    KeptAll(ids, RowsOf(t, parent, tenant));
    forall i | 0 <= i < |ids| ensures u[ids[i]].order == i {
      assert ids[i] in ids && ids[i] in cards;
      assert Targeted(t, ids, parent, tenant, ids[i]);
    }
  }

  lemma StrictListingIsUnique<T>(t: Table<T>, parent: Id, tenant: Id, l: seq<Id>, k: seq<Id>)
    requires IsListing(t, parent, tenant, l) && Strict(t, l) && IsListing(t, parent, tenant, k)
    ensures k == l
  {
    StrictIsOrdered(t, l);
    ListingIsUnique(t, l, k);
  }

  /** array.sort by the position of each card in the request. */
  method SortByIndex(cards: seq<Id>, ids: seq<Id>) returns (r: seq<Id>)
    requires Distinct(cards) && Distinct(ids) && (forall x :: x in ids <==> x in cards)
    ensures r == ids
  {
    var index := map i | 0 <= i < |ids| :: ids[i] := Row("", "", i, 0, true, ());
    r := [];
    for i := 0 to |cards|
      invariant Distinct(r) && InOrder(index, r)
      invariant forall x :: x in r <==> x in cards[..i]
    {
      assert cards[i] in cards && cards[i] in index.Keys;
      assert forall x :: x in cards[..i + 1] <==> x in cards[..i] || x == cards[i];
      r := InsertByOrder(index, r, cards[i]);
    }
    assert cards[..|cards|] == cards;
    StrictIsOrdered(index, ids);
    ListingIsUnique(index, ids, r);
  }

  // ---- The builder ----

  class Canvas {
    const server: Server
    const tenant: Id
    const page: Id
    var cards: seq<Id>

    /** What the browser shows is a listing the server could give. */
    ghost predicate InStep()
      reads this, server
    {
      server.Valid() && IsListing(server.db.sections, page, tenant, cards)
    }

    /** ... and no two of its rows have the same sort_order and creation time, so that it is the only one. */
    ghost predicate Settled()
      reads this, server
    {
      InStep() && Separated(server.db.sections, cards)
    }

    lemma SettledIsOnlyListing(ids: seq<Id>)
      requires Settled()
      ensures IsListing(server.db.sections, page, tenant, ids) <==> ids == cards
    {
      if IsListing(server.db.sections, page, tenant, ids) {
        ListingIsUnique(server.db.sections, cards, ids);
      }
    }

    constructor (server: Server, tenant: Id, page: Id)
      requires server.Valid()
      ensures InStep() && this.server == server && this.tenant == tenant && this.page == page
    {
      this.server, this.tenant, this.page, cards := server, tenant, page, [];
      new;
      var ids, _ := server.ListSections(tenant, page);
      cards := ids;
    }

    /** PUT .../sections/order with a permutation of the cards, then the local sort. `sent`: the call gets through. */
    method Reorder(ids: seq<Id>, sent: bool) returns (ok: bool)
      requires InStep() && Distinct(ids) && (forall x :: x in ids <==> x in cards) && ids != []
      modifies this, server
      ensures InStep() && (old(Settled()) ==> Settled()) && ok == sent
      ensures ok ==> Settled() && cards == ids
      ensures !ok ==> cards == old(cards) && server.db == old(server.db)
      ensures server.db.(sections := old(server.db.sections)) == old(server.db)
    {
      if !sent {
        return false;
      }
      ghost var before := server.db.sections;
      var r := server.ReorderSections(tenant, page, ids);
      PermutedListing(before, server.db.sections, page, tenant, cards, ids);
      StrictIsOrdered(server.db.sections, ids);
      cards := SortByIndex(cards, ids);
      return true;
    }

    /** A drop of the card at a place. */
    method DropFrom(from: nat, idx: nat, sent: bool)
      requires InStep() && from < |cards|
      modifies this, server
      ensures InStep() && (old(Settled()) ==> Settled())
      ensures multiset(cards) == multiset(old(cards))
      ensures !sent ==> cards == old(cards) && server.db == old(server.db)
      ensures server.db.(sections := old(server.db.sections)) == old(server.db)
      ensures sent ==> Settled() && cards == Dropped(old(cards), from, idx)
    {
      ghost var before := cards;
      var moved := Dropped(cards, from, idx);
      DropPermutes(before, from, idx);
      assert before[from] in moved;
      var ok := Reorder(moved, sent);
    }

    /** A dropped card; a card that is gone is ignored. */
    method Drop(id: Id, idx: nat, sent: bool)
      requires InStep()
      modifies this, server
      ensures InStep() && (old(Settled()) ==> Settled())
      ensures multiset(cards) == multiset(old(cards))
      ensures !sent || id !in old(cards) ==> cards == old(cards) && server.db == old(server.db)
      ensures server.db.(sections := old(server.db.sections)) == old(server.db)
      ensures sent && id in old(cards) ==> Settled() && CardDropped(old(cards), id, idx, cards)
    {
      var from := 0;
      while from < |cards| && cards[from] != id
        invariant 0 <= from <= |cards|
        invariant id !in cards[..from]
      {
        from := from + 1;
      }
      if from < |cards| {
        CardIsDropped(cards, from, id, idx);
        DropFrom(from, idx, sent);
      }
    }

    /** POST .../sections, then the local push. */
    method Append(newID: Id, key: string, sent: bool, answered: bool, now: int) returns (created: bool)
      requires InStep() && newID !in server.db.sections
      modifies this, server
      ensures InStep() && (old(Settled()) ==> Settled())
      ensures created <==> (newID in server.db.sections)
      ensures created <==>
                && sent && answered && page in server.db.pages && server.db.pages[page].tenant == tenant
                && ActiveType(server.db.types, tenant, key)
      ensures newID !in old(cards) && cards == if created then old(cards) + [newID] else old(cards)
      ensures server.db.(sections := old(server.db.sections)) == old(server.db)
      ensures !created ==> server.db == old(server.db)
    {
      ghost var before := server.db.sections;
      assert newID in cards <==> Belongs(before, page, tenant, newID);
      if !sent {
        return false;
      }
      var r := server.CreateSection(newID, tenant, page, key, Doc(Obj(map[])), answered, now);
      if r != Done {
        return false;
      }
      CreatedIsListed(before, server.db.sections, newID, page, tenant, cards);
      CreatedStaysSeparated(before, server.db.sections, newID, page, tenant, cards);
      cards := cards + [newID];
      return true;
    }

    /** Moves the last card to an index, unless it is there already. */
    method Place(index: nat, sent: bool)
      requires InStep() && index < |cards|
      modifies this, server
      ensures InStep() && (old(Settled()) ==> Settled())
      ensures var front, last := old(cards)[..|old(cards)| - 1], old(cards)[|old(cards)| - 1];
              cards == if sent then Spliced(front, index, last) else old(cards)
      ensures !sent ==> server.db == old(server.db)
      ensures server.db.(sections := old(server.db.sections)) == old(server.db)
    {
      var front, last := cards[..|cards| - 1], cards[|cards| - 1];
      assert cards == front + [last];
      if index < |cards| - 1 {
        SplicedIsPermutation(front, index, last);
        assert last in Spliced(front, index, last);
        var ok := Reorder(Spliced(front, index, last), sent);
      }
    }

    /** A new block: appended by the create, then moved to its index by a reorder that may fail on its own. */
    method AddBlock(newID: Id, key: string, index: nat, sentCreate: bool, answered: bool, sentOrder: bool, now: int)
      returns (created: bool)
      requires InStep() && newID !in server.db.sections && index <= |cards|
      modifies this, server
      ensures InStep() && (old(Settled()) ==> Settled())
      ensures created <==>
                && sentCreate && answered && page in old(server.db.pages)
                && old(server.db.pages)[page].tenant == tenant && ActiveType(old(server.db.types), tenant, key)
      ensures !created ==> cards == old(cards) && server.db == old(server.db)
      ensures server.db.(sections := old(server.db.sections)) == old(server.db)
      ensures created ==> newID in server.db.sections
      ensures created ==> cards == if sentOrder then Spliced(old(cards), index, newID) else old(cards) + [newID]
      ensures created ==> InsertedAt(old(cards), newID, if sentOrder then index else |old(cards)|, cards)
    {
      created := Append(newID, key, sentCreate, answered, now);
      if created {
        assert cards[..|cards| - 1] == old(cards);
        Place(index, sentOrder);
        AddedAt(old(cards), newID, index, sentOrder, cards);
      }
    }

    method DeleteBlock(id: Id, sent: bool)
      requires InStep()
      modifies this, server
      ensures InStep() && (old(Settled()) ==> Settled())
      ensures cards == if sent then Ordered.Without(old(cards), id) else old(cards)
      ensures sent ==> ErasedFrom(old(cards), id, cards)
      ensures server.db == old(server.db).(sections :=
        if sent && Targets(old(server.db.sections), id, tenant) then old(server.db.sections) - {id}
        else old(server.db.sections))
    {
      if !sent {
        return;
      }
      ghost var before := server.db.sections;
      WithoutErases(cards, id);
      var r := server.DeleteSection(tenant, id);
      WithoutMembers(cards, id);
      if r != Done {
        assert id in cards <==> Belongs(before, page, tenant, id);
        WithoutAbsent(cards, id);
        return;
      }
      cards := Filtered(cards, id);
    }

    /** Hide or show: the order is not touched. */
    method ToggleBlock(id: Id, visible: bool, sent: bool)
      requires InStep()
      modifies server
      ensures InStep() && (old(Settled()) ==> Settled())
      ensures server.db == old(server.db).(sections :=
        if sent && Targets(old(server.db.sections), id, tenant)
        then old(server.db.sections)[id := old(server.db.sections)[id].(visible := visible)]
        else old(server.db.sections))
    {
      if sent {
        ghost var before := server.db.sections;
        var r := server.UpdateSection(tenant, id, Empty, Some(visible), true);
        if r == Done {
          ShownStays(before, id, visible, page, tenant, cards);
        }
      }
    }

    /** A page of the next snapshot shows the visible cards, in the order of the canvas. */
    lemma NextSnapshot(p: Page)
      requires Settled() && IsPageOf(server.db, tenant, page, p)
      ensures forall id :: id in Kept(cards, VisibleRows(server.db.sections)) ==> id in server.db.sections
      ensures p.sections == SectionData(server.db.sections, Kept(cards, VisibleRows(server.db.sections)))
    {
      var t := server.db.sections;
      var ids :| IsVisibleListing(t, page, tenant, ids) && p.sections == SectionData(t, ids);
      var kept := Kept(cards, VisibleRows(t));
      VisibleListing(t, page, tenant, cards);
      KeptListing(t, cards, VisibleRows(t));
      assert Separated(t, kept);
      ListingIsUnique(t, kept, ids);
    }
  }

  lemma {:induction false} WithoutLast(ids: seq<Id>, last: Id, id: Id)
    ensures Ordered.Without(ids + [last], id) == Ordered.Without(ids, id) + if last == id then [] else [last]
  {
    if ids == [] {
      assert ids + [last] == [last];
    } else {
      assert (ids + [last])[1..] == ids[1..] + [last];
      WithoutLast(ids[1..], last, id);
    }
  }

  method Filtered(cards: seq<Id>, id: Id) returns (r: seq<Id>)
    ensures r == Ordered.Without(cards, id)
  {
    r := [];
    for i := 0 to |cards|
      invariant r == Ordered.Without(cards[..i], id)
    {
      assert cards[..i + 1] == cards[..i] + [cards[i]];
      WithoutLast(cards[..i], cards[i], id);
      if cards[i] != id {
        r := r + [cards[i]];
      }
    }
    assert cards[..|cards|] == cards;
  }

  lemma CreatedIsListed(
    t: Table<Section>, u: Table<Section>, newID: Id, page: Id, tenant: Id, cards: seq<Id>)
    requires IsListing(t, page, tenant, cards) && Appended(t, u, newID, page, tenant) && newID !in t
    ensures IsListing(u, page, tenant, cards + [newID]) && newID !in cards
  {
  }

  lemma CreatedStaysSeparated(
    t: Table<Section>, u: Table<Section>, newID: Id, page: Id, tenant: Id, cards: seq<Id>)
    requires newID in u && u == t[newID := u[newID]] && newID !in t
    requires IsListing(t, page, tenant, cards) && IsNextOrder(t, page, u[newID].order)
    ensures Separated(t, cards) ==> Separated(u, cards + [newID])
  {
    forall id | id in cards ensures id in t && t[id].order < u[newID].order && id != newID {
      assert Belongs(t, page, tenant, id);
    }
  }

  lemma ShownStays(t: Table<Section>, id: Id, visible: bool, page: Id, tenant: Id, cards: seq<Id>)
    requires id in t && IsListing(t, page, tenant, cards)
    ensures IsListing(t[id := t[id].(visible := visible)], page, tenant, cards)
    ensures Separated(t, cards) ==> Separated(t[id := t[id].(visible := visible)], cards)
  {
    SameRowsSameListings(t, t[id := t[id].(visible := visible)], page, tenant, cards);
  }

  /** The list of before without its element at k, which is the id. */
  ghost predicate ErasedAt(before: seq<Id>, id: Id, k: nat, after: seq<Id>) {
    k < |before| && before[k] == id && after == before[..k] + before[k + 1..]
  }

  /** The list of before, without an id if it was there. */
  ghost predicate ErasedFrom(before: seq<Id>, id: Id, after: seq<Id>) {
    if id in before then exists k :: 0 <= k < |before| && ErasedAt(before, id, k, after) else after == before
  }

  lemma ErasedAfterHead(head: Id, rest: seq<Id>, id: Id, k: nat, after: seq<Id>)
    requires ErasedAt(rest, id, k, after)
    ensures ErasedAt([head] + rest, id, k + 1, [head] + after)
  {
    var ids := [head] + rest;
    assert ids[..k + 1] == [head] + rest[..k] && ids[k + 2..] == rest[k + 1..];
  }

  lemma {:induction false} WithoutErases(ids: seq<Id>, id: Id)
    requires Distinct(ids)
    ensures ErasedFrom(ids, id, Ordered.Without(ids, id))
  {
    if id !in ids {
      WithoutAbsent(ids, id);
    } else if ids[0] == id {
      WithoutAbsent(ids[1..], id);
      assert ErasedAt(ids, id, 0, Ordered.Without(ids, id));
    } else {
      var rest := ids[1..];
      assert ids == [ids[0]] + rest;
      WithoutErases(rest, id);
      var k :| 0 <= k < |rest| && ErasedAt(rest, id, k, Ordered.Without(rest, id));
      ErasedAfterHead(ids[0], rest, id, k, Ordered.Without(rest, id));
    }
  }

  lemma {:induction false} WithoutMembers(ids: seq<Id>, id: Id)
    ensures forall x :: x in Ordered.Without(ids, id) <==> x in ids && x != id
  {
    if ids != [] {
      WithoutMembers(ids[1..], id);
      assert ids == [ids[0]] + ids[1..];
    }
  }

  lemma {:induction false} WithoutAbsent(ids: seq<Id>, id: Id)
    requires id !in ids
    ensures Ordered.Without(ids, id) == ids
  {
    if ids != [] {
      WithoutAbsent(ids[1..], id);
    }
  }

  // ---- The pages tab ----

  function Swapped(ids: seq<Id>, i: nat, j: nat): seq<Id>
    requires i < |ids| && j < |ids|
  {
    ids[i := ids[j]][j := ids[i]]
  }

  /** Two places hold each other's elements, all others what they held. */
  ghost predicate Exchanged(before: seq<Id>, i: nat, j: nat, after: seq<Id>) {
    && |after| == |before| && i < |before| && j < |before| && after[i] == before[j] && after[j] == before[i]
    && forall k :: 0 <= k < |before| && k != i && k != j ==> after[k] == before[k]
  }

  lemma SwapExchanges(ids: seq<Id>, i: nat, j: nat)
    requires i < |ids| && j < |ids|
    ensures Exchanged(ids, i, j, Swapped(ids, i, j))
  {
  }

  lemma SwapPermutes(ids: seq<Id>, i: nat, j: nat)
    requires i < |ids| && j < |ids| && Distinct(ids)
    ensures Distinct(Swapped(ids, i, j)) && forall x :: x in Swapped(ids, i, j) <==> x in ids
  {
    var r := Swapped(ids, i, j);
    forall k | 0 <= k < |ids| ensures r[k] == ids[if k == i then j else if k == j then i else k] {
    }
    forall x | x in ids ensures x in r {
      var k :| 0 <= k < |ids| && ids[k] == x;
      assert r[if k == i then j else if k == j then i else k] == x;
    }
  }

  /** The arrow buttons: disabled at the ends, they swap two neighbours and list the pages again. */
  method MovePage(server: Server, tenant: Id, website: Id, pages: seq<Id>, i: nat, up: bool, sent: bool)
    returns (shown: seq<Id>)
    requires server.Valid() && IsListing(server.db.pages, website, tenant, pages)
    requires if up then 0 < i < |pages| else i + 1 < |pages|
    modifies server
    ensures server.Valid() && IsListing(server.db.pages, website, tenant, shown)
    ensures shown == if sent then Swapped(pages, i, if up then i - 1 else i + 1) else pages
    ensures sent ==> Exchanged(pages, i, if up then i - 1 else i + 1, shown)
    ensures sent ==> forall l :: IsListing(server.db.pages, website, tenant, l) <==> l == shown
    ensures server.db.(pages := old(server.db.pages)) == old(server.db)
  {
    if !sent {
      return pages;
    }
    var j := if up then i - 1 else i + 1;
    var ids := Swapped(pages, i, j);
    SwapPermutes(pages, i, j);
    SwapExchanges(pages, i, j);
    ghost var before := server.db.pages;
    var r := server.ReorderPages(tenant, website, ids);
    PermutedListing(before, server.db.pages, website, tenant, pages, ids);
    var listed, _ := server.ListPages(tenant, website);
    forall l | IsListing(server.db.pages, website, tenant, l) ensures l == ids {
      StrictListingIsUnique(server.db.pages, website, tenant, ids, l);
    }
    return listed;
  }
}
