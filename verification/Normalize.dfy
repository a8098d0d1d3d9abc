/** Schema-directed normalisation of section content (internal/models/sectiontypes.go). */
module Normalize {
  import opened Results
  import opened Json
  import opened Schema

  // ---- Specification ----

  function ButtonOf(v: Value): Value {
    var obj := MembersOf(v);
    Obj(map["text" := Str(TextAt(obj, "text")), "link" := Str(TextAt(obj, "link"))])
  }

  /** Fields are taken in order, so of two fields with one key the later one wins. */
  function Normalized(fields: seq<FieldSpec>, data: Members): Members
    decreases fields, 0
  {
    if fields == [] then map[]
    else
      var f := fields[|fields| - 1];
      var out := Normalized(fields[..|fields| - 1], data);
      if f.key in data && f.kind != "contact_info"
      then out[f.key := NormalizedValue(f, data[f.key])]
      else out
  }

  function NormalizedValue(f: FieldSpec, v: Value): Value
    decreases f
  {
    match f.kind
    case "button" => ButtonOf(v)
    case "list" => Arr(NormalizedItems(f.fields, ItemsOf(v)))
    case _ => v
  }

  function NormalizedItems(fields: seq<FieldSpec>, items: seq<Value>): seq<Value>
    decreases fields, 1
  {
    seq(|items|, i requires 0 <= i < |items| => Obj(Normalized(fields, MembersOf(items[i]))))
  }

  function NormalizedContent(fields: seq<FieldSpec>, content: Raw): Result<Raw, DecodeError> {
    match Decode(content)
    case Ok(data) => Ok(Doc(Obj(Normalized(fields, data))))
    case Err(e) => Err(e)
  }

  // ---- The loops of the source ----

  method NormalizeMap(fields: seq<FieldSpec>, data: Members) returns (out: Members)
    ensures out == Normalized(fields, data)
    decreases fields
  {
    out := map[];
    for i := 0 to |fields|
      invariant out == Normalized(fields[..i], data)
    {
      var f := fields[i];
      assert fields[..i + 1][..i] == fields[..i];
      if f.key in data {
        var v := data[f.key];
        if f.kind == "contact_info" {
          // Nothing to keep: the block shows the website's own contact data.
        } else if f.kind == "button" {
          var obj := MembersOf(v);
          var text, link := TextAt(obj, "text"), TextAt(obj, "link");
          out := out[f.key := Obj(map["text" := Str(text), "link" := Str(link)])];
        } else if f.kind == "list" {
          var items := ItemsOf(v);
          var cleaned: seq<Value> := [];
          for j := 0 to |items|
            invariant cleaned == NormalizedItems(f.fields, items)[..j]
          {
            var item := NormalizeMap(f.fields, MembersOf(items[j]));
            cleaned := cleaned + [Obj(item)];
          }
          assert cleaned == NormalizedItems(f.fields, items);
          out := out[f.key := Arr(cleaned)];
        } else {
          out := out[f.key := v];
        }
      }
    }
    assert fields[..|fields|] == fields;
  }

  method NormalizeContent(fields: seq<FieldSpec>, content: Raw) returns (r: Result<Raw, DecodeError>)
    ensures r == NormalizedContent(fields, content)
  {
    match Decode(content) {
      case Ok(data) =>
        var out := NormalizeMap(fields, data);
        return Ok(Doc(Obj(out)));
      case Err(e) =>
        return Err(e);
    }
  }

  // ---- Key by key ----

  /** The field that decides what is stored under a key: the last one that stores content. */
  function Deciding(fields: seq<FieldSpec>, key: string): (r: Option<FieldSpec>)
    ensures r.Some? ==> r.value in fields && r.value.key == key && r.value.kind != "contact_info"
  {
    if fields == [] then None
    else
      var f := fields[|fields| - 1];
      if f.key == key && f.kind != "contact_info" then Some(f) else Deciding(fields[..|fields| - 1], key)
  }

  lemma {:induction false} DecidingExists(fields: seq<FieldSpec>, f: FieldSpec)
    requires f in fields && f.kind != "contact_info"
    ensures Deciding(fields, f.key).Some?
    ensures DistinctKeys(fields) ==> Deciding(fields, f.key) == Some(f)
  {
    var last := |fields| - 1;
    if fields[last] != f {
      assert f in fields[..last];
      DecidingExists(fields[..last], f);
    }
  }

  /** A key is stored exactly when the content has it and a field decides it, and then as that field says. */
  lemma {:induction false} NormalizedAt(fields: seq<FieldSpec>, data: Members, key: string)
    ensures key in Normalized(fields, data) <==> key in data && Deciding(fields, key).Some?
    ensures key in Normalized(fields, data) ==>
              Normalized(fields, data)[key] == NormalizedValue(Deciding(fields, key).value, data[key])
    decreases fields
  {
    if fields != [] {
      NormalizedAt(fields[..|fields| - 1], data, key);
    }
  }

  // ---- What is stored, said key by key and not by the loops ----

  /** The last field of a key that stores content. */
  ghost predicate Decides(fields: seq<FieldSpec>, i: nat, key: string) {
    && i < |fields| && fields[i].key == key && fields[i].kind != "contact_info"
    && forall j :: i < j < |fields| && fields[j].key == key ==> fields[j].kind == "contact_info"
  }

  ghost predicate TextOf(v: Value, key: string, text: Value) {
    text == Str(if v.Obj? && key in v.members && v.members[key].Str? then v.members[key].s else "")
  }

  /** The stored object has the keys of the sent one that a field decides, each in the shape of that field. */
  ghost predicate StoredFor(fields: seq<FieldSpec>, data: Members, out: Members)
    decreases fields
  {
    && (forall key :: key in out <==> key in data && exists i :: Decides(fields, i, key))
    && forall key, i: nat :: key in out && key in data && Decides(fields, i, key) ==>
         ValueStoredFor(fields[i], data[key], out[key])
  }

  /** A button keeps its two texts, a list the objects its entries hold, anything else what was sent. */
  ghost predicate ValueStoredFor(f: FieldSpec, v: Value, w: Value)
    decreases f
  {
    match f.kind
    case "button" =>
      && w.Obj? && w.members.Keys == {"text", "link"}
      && TextOf(v, "text", w.members["text"]) && TextOf(v, "link", w.members["link"])
    case "list" =>
      && w.Arr? && |w.items| == (if v.Arr? then |v.items| else 0)
      && forall i :: 0 <= i < |w.items| ==>
           w.items[i].Obj?
           && StoredFor(f.fields, if v.items[i].Obj? then v.items[i].members else map[], w.items[i].members)
    case _ => w == v
  }

  lemma {:induction false} DecidingDecides(fields: seq<FieldSpec>, key: string, i: nat)
    ensures Decides(fields, i, key) ==> Deciding(fields, key) == Some(fields[i])
    ensures Deciding(fields, key).Some? ==> exists k :: Decides(fields, k, key)
  {
    if fields != [] {
      var n := |fields| - 1;
      if fields[n].key == key && fields[n].kind != "contact_info" {
        assert Decides(fields, n, key);
      } else {
        DecidingDecides(fields[..n], key, i);
        if k :| Decides(fields[..n], k, key) {
          assert Decides(fields, k, key);
        }
      }
    }
  }

  lemma StoredKey(fields: seq<FieldSpec>, data: Members, key: string)
    ensures key in Normalized(fields, data) <==> key in data && exists i :: Decides(fields, i, key)
  {
    NormalizedAt(fields, data, key);
    DecidingDecides(fields, key, 0);
    if i :| Decides(fields, i, key) {
      DecidingDecides(fields, key, i);
    }
  }

  /** The stored object is the only one of which all that holds. */
  lemma {:induction false} NormalizedIffStored(fields: seq<FieldSpec>, data: Members, out: Members)
    ensures StoredFor(fields, data, out) <==> out == Normalized(fields, data)
    decreases fields, 0
  {
    var normal := Normalized(fields, data);
    forall key ensures key in normal <==> key in data && exists i :: Decides(fields, i, key) {
      StoredKey(fields, data, key);
    }
    forall key, i: nat | key in out && key in data && Decides(fields, i, key)
      ensures key in normal && (ValueStoredFor(fields[i], data[key], out[key]) <==> out[key] == normal[key])
    {
      NormalizedAt(fields, data, key);
      DecidingDecides(fields, key, i);
      ValueIffStored(fields[i], data[key], out[key]);
    }
    if StoredFor(fields, data, out) {
      assert out.Keys == normal.Keys;
      forall key | key in out ensures out[key] == normal[key] {
        var i :| Decides(fields, i, key);
      }
    }
  }

  lemma {:induction false} ValueIffStored(f: FieldSpec, v: Value, w: Value)
    ensures ValueStoredFor(f, v, w) <==> w == NormalizedValue(f, v)
    decreases f
  {
    if f.kind == "list" && w.Arr? && |w.items| == |ItemsOf(v)| {
      forall i | 0 <= i < |w.items| && w.items[i].Obj?
        ensures StoredFor(f.fields, MembersOf(v.items[i]), w.items[i].members) <==>
                w.items[i] == NormalizedItems(f.fields, v.items)[i]
      {
        NormalizedIffStored(f.fields, MembersOf(v.items[i]), w.items[i].members);
      }
      assert w.items == NormalizedItems(f.fields, ItemsOf(v)) <==>
             forall i :: 0 <= i < |w.items| ==> w.items[i] == NormalizedItems(f.fields, ItemsOf(v))[i];
    } else if f.kind == "button" && ValueStoredFor(f, v, w) {
      assert w.members == ButtonOf(v).members;
    }
  }

  // ---- Conforming content, defined without the normaliser ----

  /** Only keys some field decides, each in the shape of its field, at every schema-directed level. */
  ghost predicate Conforms(fields: seq<FieldSpec>, data: Members)
    decreases fields
  {
    forall key :: key in data ==>
      Deciding(fields, key).Some? && ValueConforms(Deciding(fields, key).value, data[key])
  }

  ghost predicate ValueConforms(f: FieldSpec, v: Value)
    decreases f
  {
    match f.kind
    case "button" =>
      && v.Obj?
      && v.members.Keys == {"text", "link"}
      && v.members["text"].Str?
      && v.members["link"].Str?
    case "list" =>
      && v.Arr?
      && forall i :: 0 <= i < |v.items| ==> v.items[i].Obj? && Conforms(f.fields, v.items[i].members)
    case _ => true
  }

  /** The fixed points of the normaliser are exactly the conforming objects. */
  lemma {:induction false} ConformsIffFixed(fields: seq<FieldSpec>, data: Members)
    ensures Conforms(fields, data) <==> Normalized(fields, data) == data
    decreases fields, 0
  {
    var out := Normalized(fields, data);
    forall key ensures key in out <==> key in data && Deciding(fields, key).Some? {
      NormalizedAt(fields, data, key);
    }
    forall key | key in data && Deciding(fields, key).Some?
      ensures ValueConforms(Deciding(fields, key).value, data[key]) <==> out[key] == data[key]
    {
      NormalizedAt(fields, data, key);
      ValueConformsIffFixed(Deciding(fields, key).value, data[key]);
    }
    if Conforms(fields, data) {
      assert out.Keys == data.Keys;
    }
  }

  lemma {:induction false} ValueConformsIffFixed(f: FieldSpec, v: Value)
    ensures ValueConforms(f, v) <==> NormalizedValue(f, v) == v
    decreases f
  {
    if f.kind == "list" && v.Arr? {
      var out := NormalizedItems(f.fields, v.items);
      forall i | 0 <= i < |v.items|
        ensures out[i] == v.items[i] <==> v.items[i].Obj? && Conforms(f.fields, v.items[i].members)
      {
        ConformsIffFixed(f.fields, MembersOf(v.items[i]));
      }
      if ValueConforms(f, v) {
        assert out == v.items;
      }
    } else if f.kind == "button" && ValueConforms(f, v) {
      assert ButtonOf(v).members == v.members;
    }
  }

  /** Every normalised object conforms, whatever the content and however deep the schema. */
  lemma NormalizedConforms(fields: seq<FieldSpec>, data: Members)
    ensures Conforms(fields, Normalized(fields, data))
  {
    CoversItself(fields);
    Absorbs(fields, fields, data);
    ConformsIffFixed(fields, Normalized(fields, data));
  }

  // ---- Normalising twice: when the first pass leaves no trace ----

  predicate Plain(f: FieldSpec) { f.kind != "button" && f.kind != "list" }

  /** Whatever `narrow` decides, `wide` decides too, without damage to what `narrow` will read. */
  ghost predicate Covers(narrow: seq<FieldSpec>, wide: seq<FieldSpec>)
    decreases narrow
  {
    forall key :: Deciding(narrow, key).Some? ==>
      Deciding(wide, key).Some? && FieldCovers(Deciding(narrow, key).value, Deciding(wide, key).value)
  }

  ghost predicate FieldCovers(n: FieldSpec, w: FieldSpec)
    decreases n
  {
    Plain(w) || (n.kind == w.kind && (n.kind == "list" ==> Covers(n.fields, w.fields)))
  }

  lemma {:induction false} CoversItself(fields: seq<FieldSpec>)
    ensures Covers(fields, fields)
    decreases fields
  {
    forall key | Deciding(fields, key).Some?
      ensures FieldCovers(Deciding(fields, key).value, Deciding(fields, key).value)
    {
      CoversItself(Deciding(fields, key).value.fields);
    }
  }

  /** If `wide` covers `narrow`, normalising by `wide` first changes nothing. */
  lemma {:induction false} Absorbs(narrow: seq<FieldSpec>, wide: seq<FieldSpec>, data: Members)
    requires Covers(narrow, wide)
    ensures Normalized(narrow, Normalized(wide, data)) == Normalized(narrow, data)
    decreases narrow
  {
    var mid := Normalized(wide, data);
    var twice, once := Normalized(narrow, mid), Normalized(narrow, data);
    forall key
      ensures key in twice <==> key in once
      ensures key in once ==> twice[key] == once[key]
    {
      NormalizedAt(wide, data, key);
      NormalizedAt(narrow, mid, key);
      NormalizedAt(narrow, data, key);
      if key in once {
        ValueAbsorbs(Deciding(narrow, key).value, Deciding(wide, key).value, data[key]);
      }
    }
    assert twice.Keys == once.Keys;
  }

  lemma {:induction false} ValueAbsorbs(n: FieldSpec, w: FieldSpec, v: Value)
    requires FieldCovers(n, w)
    ensures NormalizedValue(n, NormalizedValue(w, v)) == NormalizedValue(n, v)
    decreases n
  {
    if n.kind == w.kind == "list" {
      var items := ItemsOf(v);
      forall i | 0 <= i < |items| {
        Absorbs(n.fields, w.fields, MembersOf(items[i]));
      }
      assert NormalizedItems(n.fields, NormalizedItems(w.fields, items)) == NormalizedItems(n.fields, items);
    }
  }

  /** Normalising is idempotent for every schema, duplicate keys included. */
  lemma Idempotent(fields: seq<FieldSpec>, data: Members)
    ensures Normalized(fields, Normalized(fields, data)) == Normalized(fields, data)
  {
    CoversItself(fields);
    Absorbs(fields, fields, data);
  }

  ghost predicate Absorbed(narrow: seq<FieldSpec>, wide: seq<FieldSpec>, data: Members) {
    Normalized(narrow, Normalized(wide, data)) == Normalized(narrow, data)
  }

  /** Content on which normalising by `wide` first is noticed, for schemas `wide` does not cover. */
  lemma {:induction false} NotCoveredIsNoticed(narrow: seq<FieldSpec>, wide: seq<FieldSpec>)
    returns (data: Members)
    requires !Covers(narrow, wide)
    ensures !Absorbed(narrow, wide, data)
    decreases narrow
  {
    var key :| Deciding(narrow, key).Some? &&
      !(Deciding(wide, key).Some? && FieldCovers(Deciding(narrow, key).value, Deciding(wide, key).value));
    var v := Null;
    if Deciding(wide, key).Some? {
      v := ValueNotCoveredIsNoticed(Deciding(narrow, key).value, Deciding(wide, key).value);
    }
    data := map[key := v];
    NormalizedAt(wide, data, key);
    NormalizedAt(narrow, Normalized(wide, data), key);
    NormalizedAt(narrow, data, key);
  }

  lemma {:induction false} ValueNotCoveredIsNoticed(n: FieldSpec, w: FieldSpec) returns (v: Value)
    requires !FieldCovers(n, w)
    ensures NormalizedValue(n, NormalizedValue(w, v)) != NormalizedValue(n, v)
    decreases n
  {
    if Plain(n) {
      v := Null;
    } else if n.kind == "button" {
      v := Obj(map["text" := Str("x")]);
      assert TextAt(v.members, "text") == "x";
      assert ButtonOf(v).members["text"] != ButtonOf(NormalizedValue(w, v)).members["text"];
    } else if w.kind == "button" {
      v := Arr([Null]);
      assert |NormalizedValue(n, v).items| != |NormalizedValue(n, NormalizedValue(w, v)).items|;
    } else {
      var inner := NotCoveredIsNoticed(n.fields, w.fields);
      v := Arr([Obj(inner)]);
      assert n.kind == w.kind == "list";
      var once := NormalizedItems(n.fields, v.items);
      var mid := NormalizedItems(w.fields, v.items);
      var twice := NormalizedItems(n.fields, mid);
      assert once[0] == Obj(Normalized(n.fields, inner));
      assert mid[0] == Obj(Normalized(w.fields, inner));
      assert twice[0] == Obj(Normalized(n.fields, Normalized(w.fields, inner)));
    }
  }

  /** The exact condition under which a normalisation by `wide` is invisible to a later one by `narrow`. */
  lemma AbsorbsIffCovers(narrow: seq<FieldSpec>, wide: seq<FieldSpec>)
    ensures Covers(narrow, wide) <==> forall data :: Absorbed(narrow, wide, data)
  {
    if Covers(narrow, wide) {
      forall data ensures Absorbed(narrow, wide, data) {
        Absorbs(narrow, wide, data);
      }
    } else {
      var data := NotCoveredIsNoticed(narrow, wide);
    }
  }

  // ---- Removing fields from a schema ----

  /** `narrow` is `wide` with fields removed, at any depth. */
  ghost predicate Narrows(narrow: seq<FieldSpec>, wide: seq<FieldSpec>)
    decreases wide
  {
    if narrow == [] then true
    else if wide == [] then false
    else
      var n, w := |narrow| - 1, |wide| - 1;
      || Narrows(narrow, wide[..w])
      || (FieldNarrows(narrow[n], wide[w]) && Narrows(narrow[..n], wide[..w]))
  }

  ghost predicate FieldNarrows(n: FieldSpec, w: FieldSpec)
    decreases w
  {
    n.key == w.key && n.kind == w.kind && Narrows(n.fields, w.fields)
  }

  ghost predicate DeeplyUnique(fields: seq<FieldSpec>)
    decreases fields
  {
    DistinctKeys(fields) && forall f :: f in fields ==> DeeplyUnique(f.fields)
  }

  lemma {:induction false} NarrowedField(narrow: seq<FieldSpec>, wide: seq<FieldSpec>, f: FieldSpec)
    returns (w: FieldSpec)
    requires Narrows(narrow, wide) && f in narrow
    ensures w in wide && FieldNarrows(f, w)
    decreases wide
  {
    var n, m := |narrow| - 1, |wide| - 1;
    if Narrows(narrow, wide[..m]) {
      w := NarrowedField(narrow, wide[..m], f);
    } else if f == narrow[n] {
      w := wide[m];
    } else {
      assert f in narrow[..n];
      w := NarrowedField(narrow[..n], wide[..m], f);
    }
  }

  lemma {:induction false} NarrowingIsCovered(narrow: seq<FieldSpec>, wide: seq<FieldSpec>)
    requires DeeplyUnique(wide) && Narrows(narrow, wide)
    ensures Covers(narrow, wide)
    decreases narrow
  {
    forall key | Deciding(narrow, key).Some?
      ensures Deciding(wide, key).Some? && FieldCovers(Deciding(narrow, key).value, Deciding(wide, key).value)
    {
      var f := Deciding(narrow, key).value;
      var w := NarrowedField(narrow, wide, f);
      DecidingExists(wide, w);
      NarrowingIsCovered(f.fields, w.fields);
    }
  }

  /** After fields are removed from a schema, it does not matter that content was stored under the old one. */
  lemma NarrowingAbsorbs(narrow: seq<FieldSpec>, wide: seq<FieldSpec>, data: Members)
    requires DeeplyUnique(wide) && Narrows(narrow, wide)
    ensures Normalized(narrow, Normalized(wide, data)) == Normalized(narrow, data)
  {
    NarrowingIsCovered(narrow, wide);
    Absorbs(narrow, wide, data);
  }

  /** Without key uniqueness the same is false: removing the second of two fields with one key. */
  lemma NarrowingNeedsUniqueKeys()
    ensures exists narrow, wide, data :: Narrows(narrow, wide) && !Absorbed(narrow, wide, data)
  {
    var text := FieldSpec("a", "A", "text", [], []);
    var button := text.(kind := "button");
    var narrow, wide := [text], [text, button];
    var data := map["a" := Str("x")];
    assert Narrows([], []);
    assert wide[..1] == narrow;
    assert Narrows(narrow[..0], narrow[..0]);
    assert Narrows(narrow, narrow);
    assert Narrows(narrow, wide);
    assert Deciding(wide, "a") == Some(button);
    assert Deciding(narrow, "a") == Some(text);
    NormalizedAt(wide, data, "a");
    NormalizedAt(narrow, Normalized(wide, data), "a");
    NormalizedAt(narrow, data, "a");
    assert !Absorbed(narrow, wide, data);
  }
}
