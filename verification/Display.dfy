/** What a rendered block shows, said field by field of the schema and not by the loops
    (internal/generator/generator.go). */
module Display {
  import opened Results
  import opened Json
  import opened Schema
  import opened Snapshots
  import opened Render

  // ---- What content holds under a key ----

  predicate HasText(d: Members, key: string) {
    key in d && d[key].Str? && d[key].s != ""
  }

  predicate HasButton(d: Members, key: string) {
    key in d && d[key].Obj? && HasText(d[key].members, "text") && HasText(d[key].members, "link")
  }

  /** The file an image field names: the empty name when it holds no string. */
  predicate HasImage(d: Members, key: string, media: MediaTable) {
    var id := if key in d && d[key].Str? then d[key].s else "";
    id in media && media[id].url != ""
  }

  predicate ImageIs(d: Members, key: string, media: MediaTable, url: string, alt: string) {
    var id := if key in d && d[key].Str? then d[key].s else "";
    id in media && url == media[id].url && alt == media[id].alt
  }

  // ---- One list item ----

  predicate NamedText(f: FieldSpec, d: Members) {
    (f.kind == "heading" || f.kind == "text") && HasText(d, f.key)
  }

  /** The first heading or text of an item that is not empty: its title, caption or summary. */
  ghost predicate FirstText(fields: seq<FieldSpec>, i: nat, d: Members)
    requires i < |fields|
  {
    NamedText(fields[i], d) && forall j :: 0 <= j < i ==> !NamedText(fields[j], d)
  }

  /** The field has a place in the item; the summary of an accordion entry is kept apart. */
  ghost predicate ItemPart(fields: seq<FieldSpec>, i: nat, d: Members, variant: string, media: MediaTable)
    requires i < |fields|
  {
    match fields[i].kind
    case "heading" | "text" => HasText(d, fields[i].key) && !(variant == "accordion" && FirstText(fields, i, d))
    case "textarea" => HasText(d, fields[i].key)
    case "image" => HasImage(d, fields[i].key, media)
    case "button" => HasButton(d, fields[i].key)
    case _ => false
  }

  ghost predicate ItemPartIs(
    fields: seq<FieldSpec>, i: nat, d: Members, variant: string, media: MediaTable, b: BlockField)
    requires i < |fields| && ItemPart(fields, i, d, variant, media)
  {
    var key := fields[i].key;
    match fields[i].kind
    case "image" =>
      && ImageIs(d, key, media, b.imageURL, b.imageAlt)
      && b == BlockField("image", "", "", b.imageURL, b.imageAlt, [])
    case "button" => b == BlockField("button", d[key].members["text"].s, d[key].members["link"].s, "", "", [])
    case "textarea" => b == BlockField("textarea", d[key].s, "", "", "", [])
    case _ =>
      b == BlockField(
             if variant == "gallery" then "caption" else if FirstText(fields, i, d) then "title" else "text",
             d[key].s, "", "", "", [])
  }

  ghost predicate Ascending(places: seq<nat>) {
    forall a, b :: 0 <= a < b < |places| ==> places[a] < places[b]
  }

  /** The places, in order, of the first n fields that have a part in the item. */
  ghost predicate ItemPlaces(
    places: seq<nat>, fields: seq<FieldSpec>, n: nat, d: Members, variant: string, media: MediaTable)
    requires n <= |fields|
  {
    Ascending(places) && forall i :: i in places <==> 0 <= i < n && ItemPart(fields, i, d, variant, media)
  }

  ghost predicate ItemParts(
    places: seq<nat>, fields: seq<FieldSpec>, n: nat, d: Members, variant: string, media: MediaTable,
    parts: seq<BlockField>)
    requires n <= |fields|
  {
    && ItemPlaces(places, fields, n, d, variant, media)
    && |parts| == |places|
    && forall k :: 0 <= k < |places| ==> PartAt(places[k], fields, d, variant, media, parts[k])
  }

  ghost predicate PartAt(
    i: nat, fields: seq<FieldSpec>, d: Members, variant: string, media: MediaTable, b: BlockField)
  {
    i < |fields| && ItemPart(fields, i, d, variant, media) && ItemPartIs(fields, i, d, variant, media, b)
  }

  ghost predicate SummaryIs(fields: seq<FieldSpec>, n: nat, d: Members, variant: string, summary: string)
    requires n <= |fields|
  {
    && (forall i :: 0 <= i < n && FirstText(fields, i, d) && variant == "accordion" ==> summary == d[fields[i].key].s)
    && (variant != "accordion" || (forall i :: 0 <= i < n ==> !NamedText(fields[i], d)) ==> summary == "")
  }

  ghost predicate ItemShown(fields: seq<FieldSpec>, d: Members, variant: string, media: MediaTable, item: BlockItem) {
    && SummaryIs(fields, |fields|, d, variant, item.summary)
    && exists places :: ItemParts(places, fields, |fields|, d, variant, media, item.fields)
  }

  lemma AnotherItemPlace(
    places: seq<nat>, fields: seq<FieldSpec>, n: nat, d: Members, variant: string, media: MediaTable,
    parts: seq<BlockField>, b: BlockField)
    requires n < |fields| && ItemParts(places, fields, n, d, variant, media, parts)
    requires PartAt(n, fields, d, variant, media, b)
    ensures ItemParts(places + [n], fields, n + 1, d, variant, media, parts + [b])
  {
    assert forall a :: 0 <= a < |places| ==> places[a] in places;
    assert forall i :: i in places + [n] <==> i in places || i == n;
  }

  lemma NoItemPlace(
    places: seq<nat>, fields: seq<FieldSpec>, n: nat, d: Members, variant: string, media: MediaTable,
    parts: seq<BlockField>)
    requires n < |fields| && ItemParts(places, fields, n, d, variant, media, parts)
    requires !ItemPart(fields, n, d, variant, media)
    ensures ItemParts(places, fields, n + 1, d, variant, media, parts)
  {
  }

  /** What the accumulator says about the fields seen so far. */
  ghost predicate Titled(fields: seq<FieldSpec>, n: nat, d: Members, variant: string, acc: ItemAcc)
    requires n <= |fields|
  {
    && (variant != "gallery" ==> (acc.titled <==> exists i :: 0 <= i < n && NamedText(fields[i], d)))
    && (variant == "gallery" ==> !acc.titled)
    && SummaryIs(fields, n, d, variant, acc.item.summary)
  }

  lemma ItemStepTitled(fields: seq<FieldSpec>, n: nat, d: Members, variant: string, media: MediaTable, acc: ItemAcc)
    requires n < |fields| && Titled(fields, n, d, variant, acc)
    ensures Titled(fields, n + 1, d, variant, ItemStep(fields[n], d, variant, media, acc))
  {
  }

  lemma ItemStepPart(
    places: seq<nat>, fields: seq<FieldSpec>, n: nat, d: Members, variant: string, media: MediaTable, acc: ItemAcc)
    returns (places': seq<nat>)
    requires n < |fields| && Titled(fields, n, d, variant, acc)
    requires ItemParts(places, fields, n, d, variant, media, acc.item.fields)
    ensures ItemParts(places', fields, n + 1, d, variant, media, ItemStep(fields[n], d, variant, media, acc).item.fields)
  {
    var acc' := ItemStep(fields[n], d, variant, media, acc);
    if ItemPart(fields, n, d, variant, media) {
      var b := acc'.item.fields[|acc.item.fields|];
      assert acc'.item.fields == acc.item.fields + [b];
      assert ItemPartIs(fields, n, d, variant, media, b);
      AnotherItemPlace(places, fields, n, d, variant, media, acc.item.fields, b);
      places' := places + [n];
    } else {
      NoItemPlace(places, fields, n, d, variant, media, acc.item.fields);
      places' := places;
    }
  }

  lemma {:induction false} ItemFoldParts(fields: seq<FieldSpec>, n: nat, d: Members, variant: string, media: MediaTable)
    returns (places: seq<nat>)
    requires n <= |fields|
    ensures var acc := ItemFold(fields[..n], d, variant, media);
            Titled(fields, n, d, variant, acc) && ItemParts(places, fields, n, d, variant, media, acc.item.fields)
  {
    if n == 0 {
      places := [];
    } else {
      var before := ItemFoldParts(fields, n - 1, d, variant, media);
      var acc := ItemFold(fields[..n - 1], d, variant, media);
      assert fields[..n][..n - 1] == fields[..n - 1];
      ItemStepTitled(fields, n - 1, d, variant, media, acc);
      places := ItemStepPart(before, fields, n - 1, d, variant, media, acc);
    }
  }

  /** A list item shows the texts, images and buttons its schema names and its entry fills, in schema order. */
  lemma ItemDisplays(fields: seq<FieldSpec>, d: Members, variant: string, media: MediaTable)
    ensures ItemShown(fields, d, variant, media, ItemFold(fields, d, variant, media).item)
  {
    assert fields[..|fields|] == fields;
    var places := ItemFoldParts(fields, |fields|, d, variant, media);
  }

  // ---- The entries of a list ----

  /** An entry that is no object shows nothing. */
  function EntryOf(v: Value): Members {
    match v
    case Obj(m) => m
    case _ => map[]
  }

  function ListAt(d: Members, key: string): seq<Value> {
    if key in d && d[key].Arr? then d[key].items else []
  }

  ghost predicate ItemVisible(fields: seq<FieldSpec>, d: Members, variant: string, media: MediaTable) {
    || (exists i :: 0 <= i < |fields| && ItemPart(fields, i, d, variant, media))
    || (variant == "accordion" && exists i :: 0 <= i < |fields| && NamedText(fields[i], d))
  }

  ghost predicate EntryVisible(
    fields: seq<FieldSpec>, entries: seq<Value>, i: nat, variant: string, media: MediaTable)
  {
    i < |entries| && ItemVisible(fields, EntryOf(entries[i]), variant, media)
  }

  ghost predicate EntryShown(
    fields: seq<FieldSpec>, entries: seq<Value>, i: nat, variant: string, media: MediaTable, item: BlockItem)
  {
    i < |entries| && ItemShown(fields, EntryOf(entries[i]), variant, media, item)
  }

  /** The items are the visible ones of the first n entries, in their order. */
  ghost predicate EntriesShown(
    places: seq<nat>, fields: seq<FieldSpec>, entries: seq<Value>, n: nat, variant: string, media: MediaTable,
    items: seq<BlockItem>)
  {
    && Ascending(places)
    && (forall i :: i in places <==> 0 <= i < n && EntryVisible(fields, entries, i, variant, media))
    && |items| == |places|
    && forall k :: 0 <= k < |places| ==> EntryShown(fields, entries, places[k], variant, media, items[k])
  }

  ghost predicate ListShown(
    fields: seq<FieldSpec>, entries: seq<Value>, variant: string, media: MediaTable, items: seq<BlockItem>)
  {
    exists places :: EntriesShown(places, fields, entries, |entries|, variant, media, items)
  }

  lemma {:induction false} FirstExists(fields: seq<FieldSpec>, n: nat, d: Members)
    requires n <= |fields| && exists i :: 0 <= i < n && NamedText(fields[i], d)
    ensures exists i :: 0 <= i < n && FirstText(fields, i, d)
  {
    if exists i :: 0 <= i < n - 1 && NamedText(fields[i], d) {
      FirstExists(fields, n - 1, d);
    } else {
      assert FirstText(fields, n - 1, d);
    }
  }

  /** An item is kept exactly when it has something to show. */
  lemma KeptIffVisible(fields: seq<FieldSpec>, d: Members, variant: string, media: MediaTable, item: BlockItem)
    requires ItemShown(fields, d, variant, media, item)
    ensures item.summary != "" || item.fields != [] <==> ItemVisible(fields, d, variant, media)
  {
    var places :| ItemParts(places, fields, |fields|, d, variant, media, item.fields);
    if item.fields != [] {
      assert places[0] in places && ItemPart(fields, places[0], d, variant, media);
    }
    if item.summary != "" {
      assert exists i :: 0 <= i < |fields| && NamedText(fields[i], d);
    }
    if variant == "accordion" && exists i :: 0 <= i < |fields| && NamedText(fields[i], d) {
      FirstExists(fields, |fields|, d);
    }
  }

  lemma AnotherEntry(
    places: seq<nat>, fields: seq<FieldSpec>, entries: seq<Value>, n: nat, variant: string, media: MediaTable,
    items: seq<BlockItem>, item: BlockItem)
    requires EntriesShown(places, fields, entries, n, variant, media, items)
    requires EntryVisible(fields, entries, n, variant, media) && EntryShown(fields, entries, n, variant, media, item)
    ensures EntriesShown(places + [n], fields, entries, n + 1, variant, media, items + [item])
  {
    assert forall a :: 0 <= a < |places| ==> places[a] in places;
    assert forall i :: i in places + [n] <==> i in places || i == n;
  }

  lemma NoEntry(
    places: seq<nat>, fields: seq<FieldSpec>, entries: seq<Value>, n: nat, variant: string, media: MediaTable,
    items: seq<BlockItem>)
    requires EntriesShown(places, fields, entries, n, variant, media, items)
    requires !EntryVisible(fields, entries, n, variant, media)
    ensures EntriesShown(places, fields, entries, n + 1, variant, media, items)
  {
  }

  /** The next entry is kept exactly when it is visible, and then shown. */
  lemma EntryKept(fields: seq<FieldSpec>, entries: seq<Value>, n: nat, variant: string, media: MediaTable)
    requires n < |entries|
    ensures var item := ItemFold(fields, EntryOf(entries[n]), variant, media).item;
            && EntryShown(fields, entries, n, variant, media, item)
            && BuiltItems(fields, entries[..n + 1], variant, media) ==
               BuiltItems(fields, entries[..n], variant, media)
               + if EntryVisible(fields, entries, n, variant, media) then [item] else []
  {
    var d := EntryOf(entries[n]);
    assert entries[..n + 1][..n] == entries[..n];
    ItemDisplays(fields, d, variant, media);
    KeptIffVisible(fields, d, variant, media, ItemFold(fields, d, variant, media).item);
  }

  lemma {:induction false} BuiltItemsShow(
    fields: seq<FieldSpec>, entries: seq<Value>, n: nat, variant: string, media: MediaTable)
    returns (places: seq<nat>)
    requires n <= |entries|
    ensures EntriesShown(places, fields, entries, n, variant, media, BuiltItems(fields, entries[..n], variant, media))
  {
    if n == 0 {
      places := [];
    } else {
      places := BuiltItemsShow(fields, entries, n - 1, variant, media);
      var before := BuiltItems(fields, entries[..n - 1], variant, media);
      EntryKept(fields, entries, n - 1, variant, media);
      if EntryVisible(fields, entries, n - 1, variant, media) {
        var item := ItemFold(fields, EntryOf(entries[n - 1]), variant, media).item;
        AnotherEntry(places, fields, entries, n - 1, variant, media, before, item);
        places := places + [n - 1];
      } else {
        NoEntry(places, fields, entries, n - 1, variant, media, before);
      }
    }
  }

  lemma ListDisplays(fields: seq<FieldSpec>, entries: seq<Value>, variant: string, media: MediaTable)
    ensures var items := BuiltItems(fields, entries, variant, media);
            && ListShown(fields, entries, variant, media, items)
            && (items != [] <==> exists i :: EntryVisible(fields, entries, i, variant, media))
  {
    assert entries[..|entries|] == entries;
    var places := BuiltItemsShow(fields, entries, |entries|, variant, media);
    if places != [] {
      assert places[0] in places && EntryVisible(fields, entries, places[0], variant, media);
    }
    forall i: nat | EntryVisible(fields, entries, i, variant, media) ensures places != [] {
      assert i in places;
    }
  }

  // ---- The fields of a block ----

  predicate ImageShown(f: FieldSpec, d: Members, media: MediaTable) {
    f.kind == "image" && HasImage(d, f.key, media)
  }

  /** A banner's first image is its background and not one of its fields. */
  ghost predicate BannerImage(specs: seq<FieldSpec>, i: nat, d: Members, variant: string, media: MediaTable)
    requires i < |specs|
  {
    && variant == "banner"
    && ImageShown(specs[i], d, media)
    && forall j :: 0 <= j < i ==> !ImageShown(specs[j], d, media)
  }

  ghost predicate BlockPart(specs: seq<FieldSpec>, i: nat, d: Members, variant: string, media: MediaTable)
    requires i < |specs|
  {
    var key := specs[i].key;
    match specs[i].kind
    case "heading" | "text" | "textarea" => HasText(d, key)
    case "image" => HasImage(d, key, media) && !BannerImage(specs, i, d, variant, media)
    case "button" => HasButton(d, key)
    case "contact_info" => true
    case "list" => exists j :: EntryVisible(specs[i].fields, ListAt(d, key), j, variant, media)
    case _ => false
  }

  ghost predicate BlockPartIs(f: FieldSpec, d: Members, variant: string, media: MediaTable, b: BlockField) {
    match f.kind
    case "heading" | "text" | "textarea" => HasText(d, f.key) && b == BlockField(f.kind, d[f.key].s, "", "", "", [])
    case "image" =>
      && ImageIs(d, f.key, media, b.imageURL, b.imageAlt)
      && b == BlockField("image", "", "", b.imageURL, b.imageAlt, [])
    case "button" =>
      && HasButton(d, f.key)
      && b == BlockField("button", d[f.key].members["text"].s, d[f.key].members["link"].s, "", "", [])
    case "contact_info" => b == BlockField("contact", "", "", "", "", [])
    case _ =>
      && ListShown(f.fields, ListAt(d, f.key), variant, media, b.items)
      && b == BlockField("items", "", "", "", "", b.items)
  }

  ghost predicate BlockPartAt(
    i: nat, specs: seq<FieldSpec>, d: Members, variant: string, media: MediaTable, b: BlockField)
  {
    i < |specs| && BlockPartIs(specs[i], d, variant, media, b)
  }

  /** The parts are those of the first n fields that have one, in schema order. */
  ghost predicate BlockParts(
    places: seq<nat>, specs: seq<FieldSpec>, n: nat, d: Members, variant: string, media: MediaTable,
    parts: seq<BlockField>)
    requires n <= |specs|
  {
    && Ascending(places)
    && (forall i :: i in places <==> 0 <= i < n && BlockPart(specs, i, d, variant, media))
    && |parts| == |places|
    && forall k :: 0 <= k < |places| ==> BlockPartAt(places[k], specs, d, variant, media, parts[k])
  }

  ghost predicate BackgroundIs(
    specs: seq<FieldSpec>, n: nat, d: Members, variant: string, media: MediaTable, url: string)
    requires n <= |specs|
  {
    && (forall i :: 0 <= i < n && BannerImage(specs, i, d, variant, media) ==>
          exists alt :: ImageIs(d, specs[i].key, media, url, alt))
    && ((forall i :: 0 <= i < n ==> !BannerImage(specs, i, d, variant, media)) ==> url == "")
  }

  ghost predicate ListPart(specs: seq<FieldSpec>, i: nat, d: Members, variant: string, media: MediaTable)
    requires i < |specs|
  {
    specs[i].kind == "list" && BlockPart(specs, i, d, variant, media)
  }

  ghost predicate BlockSeen(
    places: seq<nat>, specs: seq<FieldSpec>, n: nat, d: Members, variant: string, media: MediaTable, acc: BlockAcc)
    requires n <= |specs|
  {
    && BlockParts(places, specs, n, d, variant, media, acc.fields)
    && BackgroundIs(specs, n, d, variant, media, acc.bgImage)
    && (acc.hasItems <==> exists i :: 0 <= i < n && ListPart(specs, i, d, variant, media))
  }

  lemma AnotherBlockPart(
    places: seq<nat>, specs: seq<FieldSpec>, n: nat, d: Members, variant: string, media: MediaTable,
    parts: seq<BlockField>, b: BlockField)
    requires n < |specs| && BlockParts(places, specs, n, d, variant, media, parts)
    requires BlockPart(specs, n, d, variant, media) && BlockPartIs(specs[n], d, variant, media, b)
    ensures BlockParts(places + [n], specs, n + 1, d, variant, media, parts + [b])
  {
    assert forall a :: 0 <= a < |places| ==> places[a] in places;
    assert forall i :: i in places + [n] <==> i in places || i == n;
    assert BlockPartAt(n, specs, d, variant, media, b);
  }

  lemma NoBlockPart(
    places: seq<nat>, specs: seq<FieldSpec>, n: nat, d: Members, variant: string, media: MediaTable,
    parts: seq<BlockField>)
    requires n < |specs| && BlockParts(places, specs, n, d, variant, media, parts)
    requires !BlockPart(specs, n, d, variant, media)
    ensures BlockParts(places, specs, n + 1, d, variant, media, parts)
  {
  }

  /** Before the first image that has a file, a banner has no background. */
  lemma {:induction false} BannerIffImage(
    specs: seq<FieldSpec>, n: nat, d: Members, variant: string, media: MediaTable, url: string)
    requires n <= |specs| && BackgroundIs(specs, n, d, variant, media, url)
    ensures variant == "banner" ==> (url == "" <==> forall j :: 0 <= j < n ==> !ImageShown(specs[j], d, media))
  {
    if variant == "banner" && exists j :: 0 <= j < n && ImageShown(specs[j], d, media) {
      var i := FirstImage(specs, n, d, media);
      assert BannerImage(specs, i, d, variant, media);
    }
  }

  lemma {:induction false} FirstImage(specs: seq<FieldSpec>, n: nat, d: Members, media: MediaTable) returns (i: nat)
    requires n <= |specs| && exists j :: 0 <= j < n && ImageShown(specs[j], d, media)
    ensures i < n && ImageShown(specs[i], d, media) && forall j :: 0 <= j < i ==> !ImageShown(specs[j], d, media)
  {
    if exists j :: 0 <= j < n - 1 && ImageShown(specs[j], d, media) {
      i := FirstImage(specs, n - 1, d, media);
    } else {
      i := n - 1;
    }
  }

  lemma ImageStepPart(specs: seq<FieldSpec>, n: nat, d: Members, variant: string, media: MediaTable, acc: BlockAcc)
    requires n < |specs| && specs[n].kind == "image" && BackgroundIs(specs, n, d, variant, media, acc.bgImage)
    ensures PartAdded(specs, n, d, variant, media, acc)
  {
    BannerIffImage(specs, n, d, variant, media, acc.bgImage);
    var m := Lookup(media, TextAt(d, specs[n].key));
    if BlockPart(specs, n, d, variant, media) {
      assert BlockPartIs(specs[n], d, variant, media, BlockField("image", "", "", m.url, m.alt, []));
    }
  }

  lemma ListStepPart(specs: seq<FieldSpec>, n: nat, d: Members, variant: string, media: MediaTable, acc: BlockAcc)
    requires n < |specs| && specs[n].kind == "list"
    ensures PartAdded(specs, n, d, variant, media, acc)
  {
    var f := specs[n];
    var items := BuiltItems(f.fields, ListAt(d, f.key), variant, media);
    ListDisplays(f.fields, ListAt(d, f.key), variant, media);
    if BlockPart(specs, n, d, variant, media) {
      assert BlockPartIs(f, d, variant, media, BlockField("items", "", "", "", "", items));
    }
  }

  /** Whether the next field adds a part, and which. */
  ghost predicate PartAdded(
    specs: seq<FieldSpec>, n: nat, d: Members, variant: string, media: MediaTable, acc: BlockAcc)
    requires n < |specs|
  {
    var fields := BlockStep(specs[n], d, variant, media, acc).fields;
    if BlockPart(specs, n, d, variant, media)
    then exists b :: fields == acc.fields + [b] && BlockPartIs(specs[n], d, variant, media, b)
    else fields == acc.fields
  }

  lemma BlockStepPart(specs: seq<FieldSpec>, n: nat, d: Members, variant: string, media: MediaTable, acc: BlockAcc)
    requires n < |specs| && BackgroundIs(specs, n, d, variant, media, acc.bgImage)
    ensures PartAdded(specs, n, d, variant, media, acc)
  {
    var f := specs[n];
    if f.kind == "list" {
      ListStepPart(specs, n, d, variant, media, acc);
    } else if f.kind == "image" {
      ImageStepPart(specs, n, d, variant, media, acc);
    } else if BlockPart(specs, n, d, variant, media) {
      var fields := BlockStep(f, d, variant, media, acc).fields;
      assert fields == acc.fields + [fields[|acc.fields|]];
      assert BlockPartIs(f, d, variant, media, fields[|acc.fields|]);
    }
  }

  lemma BlockStepBackground(
    specs: seq<FieldSpec>, n: nat, d: Members, variant: string, media: MediaTable, acc: BlockAcc)
    requires n < |specs| && BackgroundIs(specs, n, d, variant, media, acc.bgImage)
    ensures BackgroundIs(specs, n + 1, d, variant, media, BlockStep(specs[n], d, variant, media, acc).bgImage)
  {
    BannerIffImage(specs, n, d, variant, media, acc.bgImage);
    var after := BlockStep(specs[n], d, variant, media, acc).bgImage;
    if BannerImage(specs, n, d, variant, media) {
      assert ImageIs(d, specs[n].key, media, after, Lookup(media, TextAt(d, specs[n].key)).alt);
    }
  }

  lemma BlockStepLists(specs: seq<FieldSpec>, n: nat, d: Members, variant: string, media: MediaTable, acc: BlockAcc)
    requires n < |specs|
    ensures BlockStep(specs[n], d, variant, media, acc).hasItems <==>
            acc.hasItems || ListPart(specs, n, d, variant, media)
  {
    if specs[n].kind == "list" {
      ListDisplays(specs[n].fields, ListAt(d, specs[n].key), variant, media);
    }
  }

  lemma {:induction false} BlockFoldSeen(specs: seq<FieldSpec>, n: nat, d: Members, variant: string, media: MediaTable)
    returns (places: seq<nat>)
    requires n <= |specs|
    ensures BlockSeen(places, specs, n, d, variant, media, BlockFold(specs[..n], d, variant, media))
  {
    if n == 0 {
      places := [];
    } else {
      places := BlockFoldSeen(specs, n - 1, d, variant, media);
      var acc := BlockFold(specs[..n - 1], d, variant, media);
      assert specs[..n][..n - 1] == specs[..n - 1];
      BlockStepPart(specs, n - 1, d, variant, media, acc);
      BlockStepBackground(specs, n - 1, d, variant, media, acc);
      BlockStepLists(specs, n - 1, d, variant, media, acc);
      var fields := BlockFold(specs[..n], d, variant, media).fields;
      if BlockPart(specs, n - 1, d, variant, media) {
        var b :| fields == acc.fields + [b] && BlockPartIs(specs[n - 1], d, variant, media, b);
        AnotherBlockPart(places, specs, n - 1, d, variant, media, acc.fields, b);
        places := places + [n - 1];
      } else {
        NoBlockPart(places, specs, n - 1, d, variant, media, acc.fields);
      }
    }
  }

  // ---- A block as a whole ----

  /** The object a stored document holds: the empty one for no bytes and for null. */
  ghost predicate Holds(content: Raw, d: Members) {
    match content
    case Doc(Obj(m)) => d == m
    case Doc(Null) => d == map[]
    case Empty => d == map[]
    case _ => false
  }

  ghost predicate FieldsShown(schema: BlockType, d: Members, variant: string, media: MediaTable, block: BlockData) {
    var specs := schema.fields;
    && (exists places :: BlockParts(places, specs, |specs|, d, variant, media, block.fields))
    && BackgroundIs(specs, |specs|, d, variant, media, block.bgImage)
    && (block.hasItems <==> exists i :: 0 <= i < |specs| && ListPart(specs, i, d, variant, media))
  }

  ghost predicate BlockShown(schema: BlockType, d: Members, site: SiteData, media: MediaTable, block: BlockData) {
    && block.variant == (if schema.layout.variant == "" then "default" else schema.layout.variant)
    && block.align == (if HasText(d, "alignment") then d["alignment"].s else schema.layout.align)
    && block.bg == schema.layout.background
    && block.site == site
    && FieldsShown(schema, d, block.variant, media, block)
  }

  /** A section's block exists exactly when its content holds an object, and shows of it what the schema says. */
  ghost predicate SectionShown(
    schema: BlockType, content: Raw, site: SiteData, media: MediaTable, r: Result<BlockData, DecodeError>)
  {
    match r
    case Ok(block) => exists d :: Holds(content, d) && BlockShown(schema, d, site, media, block)
    case Err(_) => !exists d :: Holds(content, d)
  }

  lemma BlockDisplays(schema: BlockType, content: Raw, site: SiteData, media: MediaTable)
    ensures SectionShown(schema, content, site, media, Built(schema, content, site, media))
  {
    if Decode(content).Ok? {
      var d := Decode(content).value;
      var variant := FirstNonEmpty(schema.layout.variant, "default");
      var specs := schema.fields;
      assert specs[..|specs|] == specs;
      var places := BlockFoldSeen(specs, |specs|, d, variant, media);
      assert Holds(content, d) && BlockShown(schema, d, site, media, BuiltFrom(schema, d, site, media));
    }
  }
}
