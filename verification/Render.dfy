/** Schema-directed rendering of one section into its view model (internal/generator/generator.go). */
module Render {
  import opened Results
  import opened Json
  import opened Schema
  import opened Normalize
  import opened Snapshots

  datatype NavItem = NavItem(title: string, href: string)

  datatype SiteData = SiteData(
    name: string, settings: Settings, logoURL: string, nav: seq<NavItem>, year: int, basePath: string)

  datatype BlockField = BlockField(
    kind: string, text: string, url: string, imageURL: string, imageAlt: string, items: seq<BlockItem>)

  datatype BlockItem = BlockItem(summary: string, fields: seq<BlockField>)

  datatype BlockData = BlockData(
    variant: string, align: string, bg: string, bgImage: string,
    fields: seq<BlockField>, hasItems: bool, site: SiteData)

  function TextField(kind: string, s: string): BlockField { BlockField(kind, s, "", "", "", []) }

  function ImageField(m: Media): BlockField { BlockField("image", "", "", m.url, m.alt, []) }

  function ButtonField(text: string, link: string): BlockField { BlockField("button", text, link, "", "", []) }

  function ContactField(): BlockField { BlockField("contact", "", "", "", "", []) }

  function ItemsField(items: seq<BlockItem>): BlockField { BlockField("items", "", "", "", "", items) }

  function FirstNonEmpty(a: string, b: string): string { if a != "" then a else b }

  // ---- Specification: what the two loops have accumulated after each field ----

  datatype ItemAcc = ItemAcc(item: BlockItem, titled: bool) {
    function With(f: BlockField): ItemAcc {
      this.(item := item.(fields := item.fields + [f]))
    }
  }

  function ItemStep(f: FieldSpec, d: Members, variant: string, media: MediaTable, acc: ItemAcc): ItemAcc {
    var s := TextAt(d, f.key);
    match f.kind
    case "heading" | "text" =>
      if s == "" then acc
      else if variant == "accordion" && !acc.titled then ItemAcc(acc.item.(summary := s), true)
      else if variant == "gallery" then acc.With(TextField("caption", s))
      else if !acc.titled then acc.With(TextField("title", s)).(titled := true)
      else acc.With(TextField("text", s))
    case "textarea" => if s == "" then acc else acc.With(TextField("textarea", s))
    case "image" =>
      var m := Lookup(media, s);
      if m.url == "" then acc else acc.With(ImageField(m))
    case "button" =>
      var obj := MembersAt(d, f.key);
      var text, link := TextAt(obj, "text"), TextAt(obj, "link");
      if text != "" && link != "" then acc.With(ButtonField(text, link)) else acc
    case _ => acc
  }

  function ItemFold(fields: seq<FieldSpec>, d: Members, variant: string, media: MediaTable): ItemAcc {
    if fields == [] then ItemAcc(BlockItem("", []), false)
    else
      var n := |fields| - 1;
      ItemStep(fields[n], d, variant, media, ItemFold(fields[..n], d, variant, media))
  }

  /** The items that have something to show. */
  function BuiltItems(fields: seq<FieldSpec>, items: seq<Value>, variant: string, media: MediaTable): seq<BlockItem> {
    if items == [] then []
    else
      var n := |items| - 1;
      var item := ItemFold(fields, MembersOf(items[n]), variant, media).item;
      BuiltItems(fields, items[..n], variant, media)
      + (if item.summary != "" || item.fields != [] then [item] else [])
  }

  datatype BlockAcc = BlockAcc(bgImage: string, fields: seq<BlockField>, hasItems: bool) {
    function With(f: BlockField): BlockAcc {
      this.(fields := fields + [f])
    }
  }

  function BlockStep(f: FieldSpec, d: Members, variant: string, media: MediaTable, acc: BlockAcc): BlockAcc {
    var s := TextAt(d, f.key);
    match f.kind
    case "heading" | "text" | "textarea" => if s == "" then acc else acc.With(TextField(f.kind, s))
    case "image" =>
      var m := Lookup(media, s);
      if m.url == "" then acc
      else if variant == "banner" && acc.bgImage == "" then acc.(bgImage := m.url)
      else acc.With(ImageField(m))
    case "button" =>
      var obj := MembersAt(d, f.key);
      var text, link := TextAt(obj, "text"), TextAt(obj, "link");
      if text != "" && link != "" then acc.With(ButtonField(text, link)) else acc
    case "contact_info" => acc.With(ContactField())
    case "list" =>
      var built := BuiltItems(f.fields, ItemsAt(d, f.key), variant, media);
      if built == [] then acc else acc.With(ItemsField(built)).(hasItems := true)
    case _ => acc
  }

  function BlockFold(fields: seq<FieldSpec>, d: Members, variant: string, media: MediaTable): BlockAcc {
    if fields == [] then BlockAcc("", [], false)
    else
      var n := |fields| - 1;
      BlockStep(fields[n], d, variant, media, BlockFold(fields[..n], d, variant, media))
  }

  function Alignment(layout: Layout, d: Members): string {
    FirstNonEmpty(TextAt(d, "alignment"), layout.align)
  }

  function BuiltFrom(schema: BlockType, d: Members, site: SiteData, media: MediaTable): BlockData {
    var variant := FirstNonEmpty(schema.layout.variant, "default");
    var acc := BlockFold(schema.fields, d, variant, media);
    BlockData(variant, Alignment(schema.layout, d), schema.layout.background,
              acc.bgImage, acc.fields, acc.hasItems, site)
  }

  function Built(schema: BlockType, content: Raw, site: SiteData, media: MediaTable): Result<BlockData, DecodeError> {
    match Decode(content)
    case Ok(d) => Ok(BuiltFrom(schema, d, site, media))
    case Err(e) => Err(e)
  }

  // ---- The loops of the source ----

  method BuildItem(fields: seq<FieldSpec>, data: Members, variant: string, media: MediaTable)
    returns (item: BlockItem)
    ensures item == ItemFold(fields, data, variant, media).item
  {
    item := BlockItem("", []);
    var titled := false;
    for i := 0 to |fields|
      invariant ItemAcc(item, titled) == ItemFold(fields[..i], data, variant, media)
    {
      assert fields[..i + 1][..i] == fields[..i];
      var f := fields[i];
      var s := TextAt(data, f.key);
      if f.kind == "heading" || f.kind == "text" {
        if s == "" {
        } else if variant == "accordion" && !titled {
          item := item.(summary := s);
          titled := true;
        } else if variant == "gallery" {
          item := item.(fields := item.fields + [TextField("caption", s)]);
        } else if !titled {
          item := item.(fields := item.fields + [TextField("title", s)]);
          titled := true;
        } else {
          item := item.(fields := item.fields + [TextField("text", s)]);
        }
      } else if f.kind == "textarea" {
        if s != "" {
          item := item.(fields := item.fields + [TextField("textarea", s)]);
        }
      } else if f.kind == "image" {
        var m := Lookup(media, s);
        if m.url != "" {
          item := item.(fields := item.fields + [ImageField(m)]);
        }
      } else if f.kind == "button" {
        var obj := MembersAt(data, f.key);
        var text, link := TextAt(obj, "text"), TextAt(obj, "link");
        if text != "" && link != "" {
          item := item.(fields := item.fields + [ButtonField(text, link)]);
        }
      }
    }
    assert fields[..|fields|] == fields;
  }

  method BuildItems(fields: seq<FieldSpec>, items: seq<Value>, variant: string, media: MediaTable)
    returns (built: seq<BlockItem>)
    ensures built == BuiltItems(fields, items, variant, media)
  {
    built := [];
    for i := 0 to |items|
      invariant built == BuiltItems(fields, items[..i], variant, media)
    {
      assert items[..i + 1][..i] == items[..i];
      var item := BuildItem(fields, MembersOf(items[i]), variant, media);
      if item.summary != "" || |item.fields| > 0 {
        built := built + [item];
      }
    }
    assert items[..|items|] == items;
  }

  /** The field loop of buildBlock. */
  method BuildFields(specs: seq<FieldSpec>, data: Members, variant: string, media: MediaTable)
    returns (bgImage: string, fields: seq<BlockField>, hasItems: bool)
    ensures BlockAcc(bgImage, fields, hasItems) == BlockFold(specs, data, variant, media)
  {
    bgImage, fields, hasItems := "", [], false;
    for i := 0 to |specs|
      invariant BlockAcc(bgImage, fields, hasItems) == BlockFold(specs[..i], data, variant, media)
    {
      var f := specs[i];
      ghost var acc := BlockAcc(bgImage, fields, hasItems);
      assert BlockFold(specs[..i + 1], data, variant, media) == BlockStep(f, data, variant, media, acc) by {
        assert specs[..i + 1][..i] == specs[..i];
      }
      var s := TextAt(data, f.key);
      if f.kind == "heading" || f.kind == "text" || f.kind == "textarea" {
        if s != "" {
          fields := fields + [TextField(f.kind, s)];
        }
      } else if f.kind == "image" {
        var m := Lookup(media, s);
        if m.url != "" {
          if variant == "banner" && bgImage == "" {
            bgImage := m.url;
          } else {
            fields := fields + [ImageField(m)];
          }
        }
      } else if f.kind == "button" {
        var obj := MembersAt(data, f.key);
        var text, link := TextAt(obj, "text"), TextAt(obj, "link");
        if text != "" && link != "" {
          fields := fields + [ButtonField(text, link)];
        }
      } else if f.kind == "contact_info" {
        fields := fields + [ContactField()];
      } else if f.kind == "list" {
        var built := BuildItems(f.fields, ItemsAt(data, f.key), variant, media);
        if |built| > 0 {
          fields := fields + [ItemsField(built)];
          hasItems := true;
        }
      }
    }
    assert specs[..|specs|] == specs;
  }

  method BuildBlock(schema: BlockType, content: Raw, site: SiteData, media: MediaTable)
    returns (r: Result<BlockData, DecodeError>)
    ensures r == Built(schema, content, site, media)
  {
    var decoded := Decode(content);
    if decoded.Err? {
      return Err(decoded.error);
    }
    var data := decoded.value;
    var variant := FirstNonEmpty(schema.layout.variant, "default");
    var align := schema.layout.align;
    var override := TextAt(data, "alignment");
    if override != "" {
      align := override;
    }
    var bgImage, fields, hasItems := BuildFields(schema.fields, data, variant, media);
    return Ok(BlockData(variant, align, schema.layout.background, bgImage, fields, hasItems, site));
  }

  // ---- Two contents the renderer cannot tell apart ----

  /** A single field of a list item reads the same from both. */
  ghost predicate ItemAgrees(f: FieldSpec, d: Members, e: Members) {
    match f.kind
    case "heading" | "text" | "textarea" | "image" => TextAt(d, f.key) == TextAt(e, f.key)
    case "button" =>
      var o, p := MembersAt(d, f.key), MembersAt(e, f.key);
      TextAt(o, "text") == TextAt(p, "text") && TextAt(o, "link") == TextAt(p, "link")
    case _ => true
  }

  ghost predicate Agrees(f: FieldSpec, d: Members, e: Members) {
    if f.kind != "list" then ItemAgrees(f, d, e)
    else
      var xs, ys := ItemsAt(d, f.key), ItemsAt(e, f.key);
      && |xs| == |ys|
      && forall i, sub :: 0 <= i < |xs| && sub in f.fields ==> ItemAgrees(sub, MembersOf(xs[i]), MembersOf(ys[i]))
  }

  lemma {:induction false} AgreeingItems(
    fields: seq<FieldSpec>, d: Members, e: Members, variant: string, media: MediaTable)
    requires forall f :: f in fields ==> ItemAgrees(f, d, e)
    ensures ItemFold(fields, d, variant, media) == ItemFold(fields, e, variant, media)
  {
    if fields != [] {
      var n := |fields| - 1;
      assert ItemAgrees(fields[n], d, e);
      AgreeingItems(fields[..n], d, e, variant, media);
    }
  }

  lemma {:induction false} AgreeingLists(
    fields: seq<FieldSpec>, xs: seq<Value>, ys: seq<Value>, variant: string, media: MediaTable)
    requires |xs| == |ys|
    requires forall i, f :: 0 <= i < |xs| && f in fields ==> ItemAgrees(f, MembersOf(xs[i]), MembersOf(ys[i]))
    ensures BuiltItems(fields, xs, variant, media) == BuiltItems(fields, ys, variant, media)
  {
    if xs != [] {
      var n := |xs| - 1;
      AgreeingItems(fields, MembersOf(xs[n]), MembersOf(ys[n]), variant, media);
      AgreeingLists(fields, xs[..n], ys[..n], variant, media);
    }
  }

  lemma {:induction false} AgreeingBlocks(
    fields: seq<FieldSpec>, d: Members, e: Members, variant: string, media: MediaTable)
    requires forall f :: f in fields ==> Agrees(f, d, e)
    ensures BlockFold(fields, d, variant, media) == BlockFold(fields, e, variant, media)
  {
    if fields != [] {
      var n := |fields| - 1;
      assert Agrees(fields[n], d, e);
      AgreeingBlocks(fields[..n], d, e, variant, media);
      if fields[n].kind == "list" {
        AgreeingLists(fields[n].fields, ItemsAt(d, fields[n].key), ItemsAt(e, fields[n].key), variant, media);
      }
    }
  }

  // ---- Normalising is invisible to the renderer ----

  lemma NormalizedItemAgrees(fields: seq<FieldSpec>, f: FieldSpec, data: Members)
    requires DistinctKeys(fields) && f in fields
    ensures ItemAgrees(f, data, Normalized(fields, data))
  {
    if f.kind != "contact_info" {
      DecidingExists(fields, f);
      NormalizedAt(fields, data, f.key);
    }
  }

  lemma NormalizedAgrees(fields: seq<FieldSpec>, f: FieldSpec, data: Members)
    requires UniqueKeys(fields) && f in fields
    ensures Agrees(f, data, Normalized(fields, data))
  {
    NormalizedItemAgrees(fields, f, data);
    if f.kind == "list" {
      DecidingExists(fields, f);
      NormalizedAt(fields, data, f.key);
      var xs := ItemsAt(data, f.key);
      forall i, sub | 0 <= i < |xs| && sub in f.fields
        ensures ItemAgrees(sub, MembersOf(xs[i]), Normalized(f.fields, MembersOf(xs[i])))
      {
        NormalizedItemAgrees(f.fields, sub, MembersOf(xs[i]));
      }
    }
  }

  /** The alignment survives normalisation: it was no override, or a plain schema field stores it. */
  ghost predicate AlignmentKept(schema: BlockType, data: Members) {
    || TextAt(data, "alignment") == ""
    || TextAt(data, "alignment") == schema.layout.align
    || exists f :: f in schema.fields && f.key == "alignment" && Plain(f) && f.kind != "contact_info"
  }

  /** Normalised content renders like the raw content; only the alignment may differ, and exactly when not kept. */
  lemma NormalizingKeepsRendering(schema: BlockType, data: Members, site: SiteData, media: MediaTable)
    requires UniqueKeys(schema.fields)
    ensures var raw := BuiltFrom(schema, data, site, media);
            var normal := BuiltFrom(schema, Normalized(schema.fields, data), site, media);
            && normal == raw.(align := normal.align)
            && (normal == raw <==> AlignmentKept(schema, data))
  {
    var out := Normalized(schema.fields, data);
    forall f | f in schema.fields ensures Agrees(f, data, out) {
      NormalizedAgrees(schema.fields, f, data);
    }
    AgreeingBlocks(schema.fields, data, out, FirstNonEmpty(schema.layout.variant, "default"), media);
    NormalizedAt(schema.fields, data, "alignment");
    forall f | f in schema.fields && f.kind != "contact_info" ensures Deciding(schema.fields, f.key) == Some(f) {
      DecidingExists(schema.fields, f);
    }
  }

  /** The same for stored content: both paths reject the same documents, and otherwise render alike. */
  lemma NormalizingKeepsBlocks(schema: BlockType, content: Raw, site: SiteData, media: MediaTable)
    requires UniqueKeys(schema.fields)
    ensures NormalizedContent(schema.fields, content).Err? <==> Built(schema, content, site, media).Err?
    ensures NormalizedContent(schema.fields, content).Ok? ==>
              var stored := NormalizedContent(schema.fields, content).value;
              var raw, normal := Built(schema, content, site, media), Built(schema, stored, site, media);
              && normal.Ok?
              && normal.value == raw.value.(align := normal.value.align)
              && (normal == raw <==> AlignmentKept(schema, Decode(content).value))
  {
    if Decode(content).Ok? {
      NormalizingKeepsRendering(schema, Decode(content).value, site, media);
    }
  }

  /** With two fields under one key the stored content can render differently, alignment aside. */
  lemma RenderingNeedsUniqueKeys(site: SiteData, media: MediaTable)
    ensures exists schema: BlockType, data ::
              BuiltFrom(schema, Normalized(schema.fields, data), site, media).fields
              != BuiltFrom(schema, data, site, media).fields
  {
    var text := FieldSpec("a", "A", "text", [], []);
    var fields := [text, text.(kind := "button")];
    var schema := BlockType("T", fields, Layout("", "", ""));
    var data := map["a" := Str("x")];
    var out := Normalized(fields, data);
    NormalizedAt(fields, data, "a");
    assert fields[..1] == [text];
    assert fields[..1][..0] == [];
    assert TextAt(data, "a") == "x";
    assert BlockFold([text], data, "default", media).fields == [TextField("text", "x")];
    assert BlockFold([text], out, "default", media).fields == [];
    assert BlockFold(fields, data, "default", media).fields == [TextField("text", "x")];
    assert BlockFold(fields, out, "default", media).fields == [];
    assert BuiltFrom(schema, out, site, media).fields != BuiltFrom(schema, data, site, media).fields;
  }
}
