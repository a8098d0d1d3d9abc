/** Block type schemas and their validator (internal/models/sectiontypes.go). */
module Schema {
  import opened Results

  datatype FieldSpec = FieldSpec(
    key: string, title: string, kind: string, options: seq<string>, fields: seq<FieldSpec>)

  datatype Layout = Layout(variant: string, background: string, align: string)

  const FIELD_KINDS: set<string> :=
    {"heading", "text", "textarea", "url", "image", "select", "bool", "button", "contact_info", "list"}

  const LAYOUT_VARIANTS: set<string> :=
    {"", "default", "banner", "cards", "gallery", "accordion", "cta"}

  const MAX_SCHEMA_FIELDS := 30
  const MAX_KEY_LENGTH := 40

  datatype Fault =
    | UnknownVariant
    | NoFields
    | TooManyFields
    | BadKey(key: string)
    | DuplicateKey(key: string)
    | UnknownKind(key: string)
    | NoLabel(key: string)
    | NoOptions(key: string)
    | NestedList(key: string)
    | NoItemFields(key: string)
    | TooManyItemFields(key: string)

  predicate IsLower(c: char) { 'a' <= c <= 'z' }

  predicate IsDigit(c: char) { '0' <= c <= '9' }

  /** The language of keyRe, with its length limit. */
  predicate GoodKey(k: string) {
    && 0 < |k| <= MAX_KEY_LENGTH
    && IsLower(k[0])
    && forall i :: 0 <= i < |k| ==> IsLower(k[i]) || IsDigit(k[i]) || k[i] == '_'
  }

  // ---- What a valid schema is, declaratively ----

  ghost predicate DistinctKeys(fields: seq<FieldSpec>) {
    forall i, j :: 0 <= i < j < |fields| ==> fields[i].key != fields[j].key
  }

  ghost predicate WellFormed(f: FieldSpec, allowList: bool)
    decreases f
  {
    && GoodKey(f.key)
    && f.kind in FIELD_KINDS
    && f.title != ""
    && (f.kind == "select" ==> f.options != [])
    && (f.kind == "list" ==>
          && allowList
          && 0 < |f.fields| <= MAX_SCHEMA_FIELDS
          && DistinctKeys(f.fields)
          && forall sub :: sub in f.fields ==> WellFormed(sub, false))
  }

  ghost predicate ValidSchema(fields: seq<FieldSpec>, layout: Layout) {
    && layout.variant in LAYOUT_VARIANTS
    && 0 < |fields| <= MAX_SCHEMA_FIELDS
    && DistinctKeys(fields)
    && forall f :: f in fields ==> WellFormed(f, true)
  }

  /** Field keys are distinct at the top level and inside every list: all the renderer needs. */
  ghost predicate UniqueKeys(fields: seq<FieldSpec>) {
    && DistinctKeys(fields)
    && forall f :: f in fields && f.kind == "list" ==> DistinctKeys(f.fields)
  }

  lemma ValidSchemaHasUniqueKeys(fields: seq<FieldSpec>, layout: Layout)
    requires ValidSchema(fields, layout)
    ensures UniqueKeys(fields)
  {
  }

  // ---- The first fault a left-to-right scan meets ----

  function FieldFault(f: FieldSpec, seen: set<string>, allowList: bool): Option<Fault>
    decreases f
  {
    if !GoodKey(f.key) then Some(BadKey(f.key))
    else if f.key in seen then Some(DuplicateKey(f.key))
    else if f.kind !in FIELD_KINDS then Some(UnknownKind(f.key))
    else if f.title == "" then Some(NoLabel(f.key))
    else if f.kind == "select" && f.options == [] then Some(NoOptions(f.key))
    else if f.kind == "list" then
      if !allowList then Some(NestedList(f.key))
      else if f.fields == [] then Some(NoItemFields(f.key))
      else if |f.fields| > MAX_SCHEMA_FIELDS then Some(TooManyItemFields(f.key))
      else FieldsFault(f.fields, {}, false)
    else None
  }

  function FieldsFault(fields: seq<FieldSpec>, seen: set<string>, allowList: bool): Option<Fault>
    decreases fields
  {
    if fields == [] then None
    else
      var fault := FieldFault(fields[0], seen, allowList);
      if fault.Some? then fault else FieldsFault(fields[1..], seen + {fields[0].key}, allowList)
  }

  function SchemaFault(fields: seq<FieldSpec>, layout: Layout): Option<Fault> {
    if layout.variant !in LAYOUT_VARIANTS then Some(UnknownVariant)
    else if fields == [] then Some(NoFields)
    else if |fields| > MAX_SCHEMA_FIELDS then Some(TooManyFields)
    else FieldsFault(fields, {}, true)
  }

  lemma {:induction false} FieldFaultless(f: FieldSpec, seen: set<string>, allowList: bool)
    ensures FieldFault(f, seen, allowList).None? <==> WellFormed(f, allowList) && f.key !in seen
    decreases f
  {
    if f.kind == "list" {
      FieldsFaultless(f.fields, {}, false);
    }
  }

  lemma {:induction false} FieldsFaultless(fields: seq<FieldSpec>, seen: set<string>, allowList: bool)
    ensures FieldsFault(fields, seen, allowList).None? <==>
            && DistinctKeys(fields)
            && (forall f :: f in fields ==> WellFormed(f, allowList))
            && (forall f :: f in fields ==> f.key !in seen)
    decreases fields
  {
    if fields != [] {
      var head, tail := fields[0], fields[1..];
      FieldFaultless(head, seen, allowList);
      FieldsFaultless(tail, seen + {head.key}, allowList);
      assert fields == [head] + tail;
      assert DistinctKeys(fields) <==> DistinctKeys(tail) && forall f :: f in tail ==> f.key != head.key;
    }
  }

  /** The scan finds nothing exactly on the schemas the declarative definition admits. */
  lemma FaultlessIffValid(fields: seq<FieldSpec>, layout: Layout)
    ensures SchemaFault(fields, layout).None? <==> ValidSchema(fields, layout)
  {
    FieldsFaultless(fields, {}, true);
  }

  // ---- Which fault is the first, said without the scan ----

  ghost predicate Named(f: FieldSpec, seen: set<string>) { GoodKey(f.key) && f.key !in seen }

  ghost predicate Described(f: FieldSpec, seen: set<string>) {
    Named(f, seen) && f.kind in FIELD_KINDS && f.title != ""
  }

  ghost predicate ListHolds(f: FieldSpec, seen: set<string>, allowList: bool) {
    Described(f, seen) && f.kind == "list" && allowList && 0 < |f.fields| <= MAX_SCHEMA_FIELDS
  }

  /** What each fault says of the field it names; the checks before it passed. */
  ghost predicate OwnFault(f: FieldSpec, seen: set<string>, allowList: bool, fault: Fault) {
    match fault
    case BadKey(key) => key == f.key && !GoodKey(key)
    case DuplicateKey(key) => key == f.key && GoodKey(key) && key in seen
    case UnknownKind(key) => key == f.key && Named(f, seen) && f.kind !in FIELD_KINDS
    case NoLabel(key) => key == f.key && Named(f, seen) && f.kind in FIELD_KINDS && f.title == ""
    case NoOptions(key) => key == f.key && Described(f, seen) && f.kind == "select" && f.options == []
    case NestedList(key) => key == f.key && Described(f, seen) && f.kind == "list" && !allowList
    case NoItemFields(key) => key == f.key && Described(f, seen) && f.kind == "list" && allowList && f.fields == []
    case TooManyItemFields(key) =>
      key == f.key && Described(f, seen) && f.kind == "list" && allowList && |f.fields| > MAX_SCHEMA_FIELDS
    case _ => false
  }

  /** A fault of the field, or the first one among the fields of its entries. */
  ghost predicate FaultOf(f: FieldSpec, seen: set<string>, allowList: bool, fault: Fault)
    decreases f, 0
  {
    || OwnFault(f, seen, allowList, fault)
    || (ListHolds(f, seen, allowList) && FirstFault(f.fields, {}, false, fault))
  }

  /** The fault of the first field that has one; `seen` are the keys before the first field. */
  ghost predicate FirstFault(fields: seq<FieldSpec>, seen: set<string>, allowList: bool, fault: Fault)
    decreases fields, 1
  {
    exists i :: 0 <= i < |fields| && FaultAt(fields, i, seen, allowList, fault)
  }

  ghost predicate NoFaultBefore(fields: seq<FieldSpec>, n: nat, seen: set<string>, allowList: bool)
    requires n <= |fields|
  {
    forall j :: 0 <= j < n ==> WellFormed(fields[j], allowList) && fields[j].key !in seen + KeysOf(fields[..j])
  }

  function KeysOf(fields: seq<FieldSpec>): set<string> { set f | f in fields :: f.key }

  ghost predicate FaultAt(fields: seq<FieldSpec>, i: nat, seen: set<string>, allowList: bool, fault: Fault)
    requires i < |fields|
    decreases fields, 0
  {
    FaultOf(fields[i], seen + KeysOf(fields[..i]), allowList, fault) && NoFaultBefore(fields, i, seen, allowList)
  }

  lemma KeysAfterHead(fields: seq<FieldSpec>, seen: set<string>, i: nat)
    requires 0 < i <= |fields|
    ensures seen + KeysOf(fields[..i]) == (seen + {fields[0].key}) + KeysOf(fields[1..][..i - 1])
  {
    var tail := fields[1..];
    assert fields[..i] == [fields[0]] + tail[..i - 1];
  }

  lemma NoFaultAfterHead(fields: seq<FieldSpec>, n: nat, seen: set<string>, allowList: bool)
    requires 0 < n <= |fields| && WellFormed(fields[0], allowList) && fields[0].key !in seen
    requires NoFaultBefore(fields[1..], n - 1, seen + {fields[0].key}, allowList)
    ensures NoFaultBefore(fields, n, seen, allowList)
  {
    forall j | 0 < j < n ensures WellFormed(fields[j], allowList) && fields[j].key !in seen + KeysOf(fields[..j]) {
      assert fields[1..][j - 1] == fields[j];
      KeysAfterHead(fields, seen, j);
    }
  }

  lemma FaultAfterHead(fields: seq<FieldSpec>, i: nat, seen: set<string>, allowList: bool, fault: Fault)
    requires i + 1 < |fields| && WellFormed(fields[0], allowList) && fields[0].key !in seen
    requires FaultAt(fields[1..], i, seen + {fields[0].key}, allowList, fault)
    ensures FaultAt(fields, i + 1, seen, allowList, fault)
  {
    KeysAfterHead(fields, seen, i + 1);
    NoFaultAfterHead(fields, i + 1, seen, allowList);
    assert fields[1..][i] == fields[i + 1];
  }

  lemma {:induction false} FieldFaultIs(f: FieldSpec, seen: set<string>, allowList: bool, fault: Fault)
    requires FieldFault(f, seen, allowList) == Some(fault)
    ensures FaultOf(f, seen, allowList, fault)
    decreases f
  {
    if ListHolds(f, seen, allowList) {
      FieldsFaultIs(f.fields, {}, false, fault);
    }
  }

  lemma {:induction false} FieldsFaultIs(fields: seq<FieldSpec>, seen: set<string>, allowList: bool, fault: Fault)
    requires FieldsFault(fields, seen, allowList) == Some(fault)
    ensures FirstFault(fields, seen, allowList, fault)
    decreases fields
  {
    if FieldFault(fields[0], seen, allowList).Some? {
      FieldFaultIs(fields[0], seen, allowList, fault);
      assert seen + KeysOf(fields[..0]) == seen;
      assert FaultAt(fields, 0, seen, allowList, fault);
    } else {
      FieldFaultless(fields[0], seen, allowList);
      var tail, seen' := fields[1..], seen + {fields[0].key};
      FieldsFaultIs(tail, seen', allowList, fault);
      var i :| 0 <= i < |tail| && FaultAt(tail, i, seen', allowList, fault);
      FaultAfterHead(fields, i, seen, allowList, fault);
    }
  }

  /** What the validator's answer means for the whole schema. */
  ghost predicate Explains(fields: seq<FieldSpec>, layout: Layout, fault: Fault) {
    if layout.variant !in LAYOUT_VARIANTS then fault == UnknownVariant
    else if fields == [] then fault == NoFields
    else if |fields| > MAX_SCHEMA_FIELDS then fault == TooManyFields
    else FirstFault(fields, {}, true, fault)
  }

  lemma FaultExplains(fields: seq<FieldSpec>, layout: Layout, fault: Fault)
    requires SchemaFault(fields, layout) == Some(fault)
    ensures Explains(fields, layout, fault)
  {
    if layout.variant in LAYOUT_VARIANTS && 0 < |fields| <= MAX_SCHEMA_FIELDS {
      FieldsFaultIs(fields, {}, true, fault);
    }
  }

  // ---- The validator as the source runs it ----

  /** `seen` is the map shared by the fields of one level; it comes back with this field's key in it. */
  method ValidateField(f: FieldSpec, seen: set<string>, allowList: bool)
    returns (fault: Option<Fault>, seen': set<string>)
    ensures fault == FieldFault(f, seen, allowList)
    ensures fault.None? ==> seen' == seen + {f.key}
    decreases f
  {
    seen' := seen;
    if !GoodKey(f.key) {
      return Some(BadKey(f.key)), seen';
    }
    if f.key in seen {
      return Some(DuplicateKey(f.key)), seen';
    }
    seen' := seen' + {f.key};
    if f.kind !in FIELD_KINDS {
      return Some(UnknownKind(f.key)), seen';
    }
    if f.title == "" {
      return Some(NoLabel(f.key)), seen';
    }
    if f.kind == "select" {
      if |f.options| == 0 {
        return Some(NoOptions(f.key)), seen';
      }
    } else if f.kind == "list" {
      if !allowList {
        return Some(NestedList(f.key)), seen';
      }
      if |f.fields| == 0 {
        return Some(NoItemFields(f.key)), seen';
      }
      if |f.fields| > MAX_SCHEMA_FIELDS {
        return Some(TooManyItemFields(f.key)), seen';
      }
      var itemSeen: set<string> := {};
      for i := 0 to |f.fields|
        invariant FieldsFault(f.fields, {}, false) == FieldsFault(f.fields[i..], itemSeen, false)
      {
        var subFault;
        ghost var rest := f.fields[i..];
        subFault, itemSeen := ValidateField(f.fields[i], itemSeen, false);
        assert rest[0] == f.fields[i] && rest[1..] == f.fields[i + 1..];
        if subFault.Some? {
          return subFault, seen';
        }
      }
    }
    return None, seen';
  }

  /** Accepts exactly the valid schemas, and otherwise names the first fault of the scan. */
  method ValidateSchema(fields: seq<FieldSpec>, layout: Layout) returns (fault: Option<Fault>)
    ensures fault.None? <==> ValidSchema(fields, layout)
    ensures fault == SchemaFault(fields, layout)
    ensures fault.Some? ==> Explains(fields, layout, fault.value)
  {
    FaultlessIffValid(fields, layout);
    if SchemaFault(fields, layout).Some? {
      FaultExplains(fields, layout, SchemaFault(fields, layout).value);
    }
    if layout.variant !in LAYOUT_VARIANTS {
      return Some(UnknownVariant);
    }
    if |fields| == 0 {
      return Some(NoFields);
    }
    if |fields| > MAX_SCHEMA_FIELDS {
      return Some(TooManyFields);
    }
    var seen: set<string> := {};
    for i := 0 to |fields|
      invariant FieldsFault(fields, {}, true) == FieldsFault(fields[i..], seen, true)
    {
      ghost var rest := fields[i..];
      fault, seen := ValidateField(fields[i], seen, true);
      assert rest[0] == fields[i] && rest[1..] == fields[i + 1..];
      if fault.Some? {
        return;
      }
    }
    return None;
  }
}
