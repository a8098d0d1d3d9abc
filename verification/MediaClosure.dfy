/** The media a section references, and why embedding just those files is enough (internal/models/sectiontypes.go). */
module MediaClosure {
  import opened Json
  import opened Schema
  import opened Snapshots
  import opened Render

  // ---- Specification ----

  /** Ids in the image fields of one list item. */
  function ItemImages(fields: seq<FieldSpec>, d: Members): set<string> {
    (set f | f in fields && f.kind == "image" :: TextAt(d, f.key)) - {""}
  }

  function ListImages(fields: seq<FieldSpec>, items: seq<Value>): set<string> {
    set i, id | 0 <= i < |items| && id in ItemImages(fields, MembersOf(items[i])) :: id
  }

  function FieldImages(f: FieldSpec, d: Members): set<string> {
    match f.kind
    case "image" => {TextAt(d, f.key)} - {""}
    case "list" => ListImages(f.fields, ItemsAt(d, f.key))
    case _ => {}
  }

  function Collected(fields: seq<FieldSpec>, d: Members): set<string> {
    set f, id | f in fields && id in FieldImages(f, d) :: id
  }

  function CollectedFrom(fields: seq<FieldSpec>, content: Raw): set<string> {
    match content
    case Empty => {}
    case _ => if Decode(content).Ok? then Collected(fields, Decode(content).value) else {}
  }

  // ---- The loops of the source ----

  method CollectMediaIDs(fields: seq<FieldSpec>, content: Raw) returns (ids: seq<string>)
    ensures (set id | id in ids) == CollectedFrom(fields, content)
  {
    ids := [];
    if content.Empty? || Decode(content).Err? {
      return;
    }
    var data := Decode(content).value;
    for i := 0 to |fields|
      invariant forall id :: id in ids <==> id in Collected(fields[..i], data)
    {
      var f := fields[i];
      ghost var before := ids;
      if f.kind == "image" {
        var s := TextAt(data, f.key);
        if s != "" {
          ids := ids + [s];
        }
      } else if f.kind == "list" {
        var items := ItemsAt(data, f.key);
        for j := 0 to |items|
          invariant forall id :: id in ids <==> id in before || id in ListImages(f.fields, items[..j])
        {
          var found := CollectItem(f.fields, MembersOf(items[j]));
          ids := ids + found;
        }
        assert items[..|items|] == items;
      }
      assert forall id :: id in ids <==> id in before || id in FieldImages(f, data);
      assert fields[..i + 1] == fields[..i] + [f];
    }
    assert fields[..|fields|] == fields;
  }

  /** The innermost loop: one list item. */
  method CollectItem(fields: seq<FieldSpec>, obj: Members) returns (ids: seq<string>)
    ensures forall id :: id in ids <==> id in ItemImages(fields, obj)
  {
    ids := [];
    for i := 0 to |fields|
      invariant forall id :: id in ids <==> id in ItemImages(fields[..i], obj)
    {
      var sub := fields[i];
      if sub.kind == "image" {
        var s := TextAt(obj, sub.key);
        if s != "" {
          ids := ids + [s];
        }
      }
    }
    assert fields[..|fields|] == fields;
  }

  // ---- Enough: tables that agree on the collected ids render alike ----

  ghost predicate SameLookups(m: MediaTable, n: MediaTable, ids: set<string>) {
    forall id :: id in ids ==> Lookup(m, id) == Lookup(n, id)
  }

  lemma {:induction false} ItemClosed(
    fields: seq<FieldSpec>, d: Members, variant: string, m: MediaTable, n: MediaTable)
    requires SameLookups(m, n, ItemImages(fields, d) + {""})
    ensures ItemFold(fields, d, variant, m) == ItemFold(fields, d, variant, n)
  {
    if fields != [] {
      var last := |fields| - 1;
      ItemClosed(fields[..last], d, variant, m, n);
      if fields[last].kind == "image" {
        var id := TextAt(d, fields[last].key);
        assert id in ItemImages(fields, d) + {""};
      }
    }
  }

  lemma {:induction false} ListClosed(
    fields: seq<FieldSpec>, items: seq<Value>, variant: string, m: MediaTable, n: MediaTable)
    requires SameLookups(m, n, ListImages(fields, items) + {""})
    ensures BuiltItems(fields, items, variant, m) == BuiltItems(fields, items, variant, n)
  {
    if items != [] {
      var last := |items| - 1;
      ListClosed(fields, items[..last], variant, m, n);
      ItemClosed(fields, MembersOf(items[last]), variant, m, n);
    }
  }

  lemma {:induction false} BlockClosed(
    fields: seq<FieldSpec>, d: Members, variant: string, m: MediaTable, n: MediaTable)
    requires SameLookups(m, n, Collected(fields, d) + {""})
    ensures BlockFold(fields, d, variant, m) == BlockFold(fields, d, variant, n)
  {
    if fields != [] {
      var last := |fields| - 1;
      var f := fields[last];
      assert Collected(fields[..last], d) <= Collected(fields, d);
      BlockClosed(fields[..last], d, variant, m, n);
      assert FieldImages(f, d) <= Collected(fields, d);
      if f.kind == "list" {
        ListClosed(f.fields, ItemsAt(d, f.key), variant, m, n);
      } else if f.kind == "image" {
        var id := TextAt(d, f.key);
        assert id in Collected(fields, d) + {""};
      }
    }
  }

  /** Restricting the media table to the collected ids does not change the block. */
  lemma CollectedIsEnough(schema: BlockType, content: Raw, site: SiteData, media: MediaTable)
    requires "" !in media
    ensures var embedded := map id | id in media && id in CollectedFrom(schema.fields, content) :: media[id];
            Built(schema, content, site, embedded) == Built(schema, content, site, media)
  {
    if Decode(content).Ok? {
      var d := Decode(content).value;
      var embedded := map id | id in media && id in CollectedFrom(schema.fields, content) :: media[id];
      if content.Empty? {
        assert Collected(schema.fields, d) == {};
      }
      BlockClosed(schema.fields, d, FirstNonEmpty(schema.layout.variant, "default"), embedded, media);
    }
  }

  // ---- Necessary: the block shows every collected id ----

  predicate ItemShows(item: BlockItem) {
    exists i :: 0 <= i < |item.fields| && item.fields[i].kind == "image"
  }

  predicate FieldShows(f: BlockField) {
    f.kind == "image" || (f.kind == "items" && exists i :: 0 <= i < |f.items| && ItemShows(f.items[i]))
  }

  predicate BlockShows(acc: BlockAcc) {
    acc.bgImage != "" || exists i :: 0 <= i < |acc.fields| && FieldShows(acc.fields[i])
  }

  lemma {:induction false} ItemShowsNothing(fields: seq<FieldSpec>, d: Members, variant: string)
    ensures !ItemShows(ItemFold(fields, d, variant, map[]).item)
  {
    if fields != [] {
      ItemShowsNothing(fields[..|fields| - 1], d, variant);
    }
  }

  lemma {:induction false} ListShowsNothing(fields: seq<FieldSpec>, items: seq<Value>, variant: string)
    ensures forall i :: 0 <= i < |BuiltItems(fields, items, variant, map[])| ==>
              !ItemShows(BuiltItems(fields, items, variant, map[])[i])
  {
    if items != [] {
      ListShowsNothing(fields, items[..|items| - 1], variant);
      ItemShowsNothing(fields, MembersOf(items[|items| - 1]), variant);
    }
  }

  /** Without media, no block shows an image. */
  lemma {:induction false} BlockShowsNothing(fields: seq<FieldSpec>, d: Members, variant: string)
    ensures !BlockShows(BlockFold(fields, d, variant, map[]))
  {
    if fields != [] {
      var f := fields[|fields| - 1];
      BlockShowsNothing(fields[..|fields| - 1], d, variant);
      ListShowsNothing(f.fields, ItemsAt(d, f.key), variant);
    }
  }

  lemma {:induction false} ItemShowsImage(
    fields: seq<FieldSpec>, d: Members, variant: string, media: MediaTable, id: string)
    requires id in ItemImages(fields, d) && Lookup(media, id).url != ""
    ensures ItemShows(ItemFold(fields, d, variant, media).item)
  {
    var last := |fields| - 1;
    var acc := ItemFold(fields[..last], d, variant, media);
    var item, item' := acc.item, ItemStep(fields[last], d, variant, media, acc).item;
    assert item.fields <= item'.fields;
    if id in ItemImages(fields[..last], d) {
      ItemShowsImage(fields[..last], d, variant, media, id);
      var i :| 0 <= i < |item.fields| && item.fields[i].kind == "image";
      assert item'.fields[i].kind == "image";
    } else {
      assert fields[last].kind == "image" && TextAt(d, fields[last].key) == id;
      assert item'.fields[|item.fields|].kind == "image";
    }
  }

  lemma {:induction false} ListShowsImage(
    fields: seq<FieldSpec>, items: seq<Value>, variant: string, media: MediaTable, id: string)
    requires id in ListImages(fields, items) && Lookup(media, id).url != ""
    ensures FieldShows(ItemsField(BuiltItems(fields, items, variant, media)))
  {
    var last := |items| - 1;
    var before, built := BuiltItems(fields, items[..last], variant, media), BuiltItems(fields, items, variant, media);
    if id in ListImages(fields, items[..last]) {
      ListShowsImage(fields, items[..last], variant, media, id);
      var i :| 0 <= i < |before| && ItemShows(before[i]);
      assert ItemShows(built[i]);
    } else {
      assert id in ItemImages(fields, MembersOf(items[last]));
      ItemShowsImage(fields, MembersOf(items[last]), variant, media, id);
      assert ItemShows(built[|before|]);
    }
  }

  lemma {:induction false} BlockShowsImage(
    fields: seq<FieldSpec>, d: Members, variant: string, media: MediaTable, id: string)
    requires id in Collected(fields, d) && Lookup(media, id).url != ""
    ensures BlockShows(BlockFold(fields, d, variant, media))
  {
    var last := |fields| - 1;
    var f := fields[last];
    var acc := BlockFold(fields[..last], d, variant, media);
    var acc' := BlockStep(f, d, variant, media, acc);
    assert acc.fields <= acc'.fields && (acc.bgImage != "" ==> acc'.bgImage != "");
    if id in Collected(fields[..last], d) {
      BlockShowsImage(fields[..last], d, variant, media, id);
      if acc.bgImage == "" {
        var i :| 0 <= i < |acc.fields| && FieldShows(acc.fields[i]);
        assert FieldShows(acc'.fields[i]);
      }
    } else {
      assert id in FieldImages(f, d);
      if f.kind == "list" {
        ListShowsImage(f.fields, ItemsAt(d, f.key), variant, media, id);
        assert FieldShows(acc'.fields[|acc.fields|]);
      } else if acc'.bgImage == "" {
        assert FieldShows(acc'.fields[|acc.fields|]);
      }
    }
  }

  /** An id is collected exactly when putting its file into an empty table changes the block. */
  lemma CollectedIffObservable(schema: BlockType, content: Raw, site: SiteData, id: string, file: Media)
    requires Decode(content).Ok? && id != "" && file.url != ""
    ensures id in CollectedFrom(schema.fields, content) <==>
            Built(schema, content, site, map[id := file]) != Built(schema, content, site, map[])
  {
    var d := Decode(content).value;
    var variant := FirstNonEmpty(schema.layout.variant, "default");
    if content.Empty? {
      assert Collected(schema.fields, d) == {};
    }
    if id in Collected(schema.fields, d) {
      BlockShowsImage(schema.fields, d, variant, map[id := file], id);
      BlockShowsNothing(schema.fields, d, variant);
    } else {
      BlockClosed(schema.fields, d, variant, map[id := file], map[]);
    }
  }
}
