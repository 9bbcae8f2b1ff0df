/** The strict Structured Output schema gate: the API-boundary normalisation and the
    violations it must not leave (common/structured_outputs.py). */
module StrictSchema {
  import opened Json
  import opened Pointer
  import opened SchemaWalk

  const MAP_CHILDREN: seq<string> :=
    ["$defs", "definitions", "properties", "patternProperties", "dependentSchemas"]
  const SINGLE_CHILDREN: seq<string> :=
    ["items", "additionalProperties", "unevaluatedProperties", "propertyNames", "contains",
     "not", "if", "then", "else", "contentSchema"]
  const ARRAY_CHILDREN: seq<string> := ["anyOf", "oneOf", "allOf", "prefixItems"]

  /** The keyword tables of `_iter_schema_children`. */
  function StrictSlots(): Slots {
    Slots(MAP_CHILDREN, SINGLE_CHILDREN, ARRAY_CHILDREN, true)
  }

  lemma MapsArePlain(k: string)
    requires k in MAP_CHILDREN
    ensures '/' !in k && '~' !in k
  {
    var j :| 0 <= j < |MAP_CHILDREN| && MAP_CHILDREN[j] == k;
  }

  lemma SinglesArePlain(k: string)
    requires k in SINGLE_CHILDREN
    ensures '/' !in k && '~' !in k
  {
    var j :| 0 <= j < |SINGLE_CHILDREN| && SINGLE_CHILDREN[j] == k;
  }

  lemma ArraysArePlain(k: string)
    requires k in ARRAY_CHILDREN
    ensures '/' !in k && '~' !in k
  {
    var j :| 0 <= j < |ARRAY_CHILDREN| && ARRAY_CHILDREN[j] == k;
  }

  /** A path the strict walk prints, other than the root's and without a list index, read as
      a `#/` reference resolves to the very node it was printed for. */
  lemma StrictPathResolves(root: Fields, e: Entry)
    requires UniqueFields(root) && e in Walk(StrictSlots(), root, "$", true)
    requires e.plain && e.path != "$"
    ensures |e.path| > 0 && IsLocal("#" + e.path[1..])
    ensures Resolve(Obj(root), "#" + e.path[1..]) == Some(Obj(e.node))
  {
    forall k | k in StrictSlots().All() ensures '/' !in k && '~' !in k {
      if k in MAP_CHILDREN {
        MapsArePlain(k);
      } else if k in SINGLE_CHILDREN {
        SinglesArePlain(k);
      } else {
        ArraysArePlain(k);
      }
    }
    WalkedPathResolves(StrictSlots(), root, e);
  }

  // ---- normalisation ----

  const SAFE_REF_ANNOTATIONS: seq<string> :=
    ["$comment", "default", "deprecated", "description", "examples", "readOnly", "title", "writeOnly"]

  function Strings(names: seq<string>): (r: Json)
    ensures r.Arr? && |r.items| == |names|
    ensures forall i | 0 <= i < |names| :: r.items[i] == Str(names[i])
  {
    Arr(seq(|names|, i requires 0 <= i < |names| => Str(names[i])))
  }

  /** `_normalize_schema_node`, removals: defaults, and safe annotations beside `$ref`. */
  function StripNode(fs: Fields): Fields {
    var a := Pop(fs, "default");
    if Has(a, "$ref") then PopAll(a, SAFE_REF_ANNOTATIONS) else a
  }

  /** `_normalize_schema_node`, closing an object that declares its properties. */
  function CloseNode(fs: Fields): Fields {
    match Get(fs, "properties")
    case Some(Obj(ps)) => Put(Put(fs, "required", Strings(Names(ps))), "additionalProperties", Bool(false))
    case _ => fs
  }

  /** The edits `_normalize_schema_node` makes to one node. */
  function EditNode(fs: Fields): Fields {
    CloseNode(StripNode(fs))
  }

  /** `normalize_strict_output_schema` on a node. The code edits a node before it walks
      its children; no edit touches a child it later visits, so the order is immaterial. */
  function Normalize(fs: Fields): Fields
    decreases fs, 1
  {
    EditNode(NormalizeFields(fs))
  }

  function NormalizeNode(j: Json): Json
    decreases j
  {
    if j.Obj? then Obj(Normalize(j.fields)) else j
  }

  function NormalizeFields(fs: Fields): Fields
    decreases fs, 0
  {
    match fs
    case Empty => Empty
    case Field(k, v, rest) => Field(k, NormalizeValue(k, v), NormalizeFields(rest))
  }

  function NormalizeValue(keyword: string, v: Json): Json
    decreases v, 1
  {
    match v
    case Obj(members) =>
      if keyword in StrictSlots().maps then Obj(NormalizeMembers(members))
      else if keyword in StrictSlots().singles then Obj(Normalize(members))
      else v
    case Arr(items) =>
      if StrictSlots().IsList(keyword) then Arr(NormalizeItems(items)) else v
    case _ => v
  }

  function NormalizeMembers(ms: Fields): Fields
    decreases ms, 0
  {
    match ms
    case Empty => Empty
    case Field(k, v, rest) =>
      Field(k, NormalizeNode(v), NormalizeMembers(rest))
  }

  function NormalizeItems(items: seq<Json>): (r: seq<Json>)
    ensures |r| == |items|
    ensures forall i | 0 <= i < |items| :: r[i] == NormalizeNode(items[i])
    decreases items, 0
  {
    if items == [] then []
    else
      assert items decreases to items[0];
      [NormalizeNode(items[0])] + NormalizeItems(items[1..])
  }

  // ---- normalisation is idempotent ----

  lemma {:induction false} PopAbsent(fs: Fields, key: string)
    requires !Has(fs, key)
    ensures Pop(fs, key) == fs
  {
    if fs.Field? {
      PopAbsent(fs.rest, key);
    }
  }

  lemma {:induction false} PopAllAbsent(fs: Fields, keys: seq<string>)
    requires forall k | k in keys :: !Has(fs, k)
    ensures PopAll(fs, keys) == fs
    decreases |keys|
  {
    if keys != [] {
      PopAbsent(fs, keys[0]);
      PopAllAbsent(fs, keys[1..]);
    }
  }

  lemma {:induction false} PutSame(fs: Fields, key: string, val: Json)
    requires Get(fs, key) == Some(val)
    ensures Put(fs, key, val) == fs
  {
    if fs.key != key {
      PutSame(fs.rest, key, val);
    }
  }

  lemma KeywordsAreNotAnnotations()
    ensures "$ref" !in SAFE_REF_ANNOTATIONS && "properties" !in SAFE_REF_ANNOTATIONS
    ensures "required" !in SAFE_REF_ANNOTATIONS && "additionalProperties" !in SAFE_REF_ANNOTATIONS
  {
  }

  lemma StripNodeLeaves(fs: Fields)
    ensures !Has(StripNode(fs), "default")
    ensures Get(StripNode(fs), "$ref") == Get(fs, "$ref")
    ensures Get(StripNode(fs), "properties") == Get(fs, "properties")
    ensures Has(fs, "$ref") ==> forall k | k in SAFE_REF_ANNOTATIONS :: !Has(StripNode(fs), k)
  {
    KeywordsAreNotAnnotations();
  }

  lemma CloseNodeLeaves(fs: Fields, key: string)
    ensures key != "required" && key != "additionalProperties" ==> Get(CloseNode(fs), key) == Get(fs, key)
  {
  }

  lemma CloseNodeCloses(fs: Fields, ps: Fields)
    requires Get(fs, "properties") == Some(Obj(ps))
    ensures Get(CloseNode(fs), "required") == Some(Strings(Names(ps)))
    ensures Get(CloseNode(fs), "additionalProperties") == Some(Bool(false))
  {
  }

  lemma StripNodeFixed(fs: Fields)
    requires !Has(fs, "default")
    requires Has(fs, "$ref") ==> forall k | k in SAFE_REF_ANNOTATIONS :: !Has(fs, k)
    ensures StripNode(fs) == fs
  {
    PopAbsent(fs, "default");
    if Has(fs, "$ref") {
      PopAllAbsent(fs, SAFE_REF_ANNOTATIONS);
    }
  }

  /** What every edited node looks like. */
  predicate Edited(n: Fields) {
    && !Has(n, "default")
    && (Has(n, "$ref") ==> forall k | k in SAFE_REF_ANNOTATIONS :: !Has(n, k))
    && (Has(n, "properties") && Get(n, "properties").value.Obj? ==>
          && Get(n, "required") == Some(Strings(Names(Get(n, "properties").value.fields)))
          && Get(n, "additionalProperties") == Some(Bool(false)))
  }

  lemma EditNodeEdits(fs: Fields)
    ensures Edited(EditNode(fs))
  {
    var s, n := StripNode(fs), EditNode(fs);
    StripNodeLeaves(fs);
    CloseNodeLeaves(s, "default");
    CloseNodeLeaves(s, "$ref");
    CloseNodeLeaves(s, "properties");
    forall k | k in SAFE_REF_ANNOTATIONS && Has(n, "$ref") ensures !Has(n, k) {
      KeywordsAreNotAnnotations();
      CloseNodeLeaves(s, k);
    }
    if Has(n, "properties") && Get(n, "properties").value.Obj? {
      CloseNodeCloses(s, Get(n, "properties").value.fields);
    }
  }

  lemma EditedIsFixed(n: Fields)
    requires Edited(n)
    ensures EditNode(n) == n
  {
    StripNodeFixed(n);
    if Has(n, "properties") && Get(n, "properties").value.Obj? {
      PutSame(n, "required", Get(n, "required").value);
      PutSame(n, "additionalProperties", Bool(false));
    }
  }

  /** A node that normalisation leaves alone, at the node and in each child slot. */
  predicate Normal(n: Fields) {
    Edited(n) && NormalizeFields(n) == n
  }

  lemma NormalIsFixed(n: Fields)
    requires Normal(n)
    ensures Normalize(n) == n
  {
    EditedIsFixed(n);
  }

  lemma {:induction false} PopKeepsSlots(fs: Fields, key: string)
    requires NormalizeFields(fs) == fs
    ensures NormalizeFields(Pop(fs, key)) == Pop(fs, key)
  {
    if fs.Field? {
      PopKeepsSlots(fs.rest, key);
    }
  }

  lemma {:induction false} PopAllKeepsSlots(fs: Fields, keys: seq<string>)
    requires NormalizeFields(fs) == fs
    ensures NormalizeFields(PopAll(fs, keys)) == PopAll(fs, keys)
    decreases |keys|
  {
    if keys != [] {
      PopKeepsSlots(fs, keys[0]);
      PopAllKeepsSlots(Pop(fs, keys[0]), keys[1..]);
    }
  }

  lemma {:induction false} PutKeepsSlots(fs: Fields, key: string, val: Json)
    requires NormalizeFields(fs) == fs && NormalizeValue(key, val) == val
    ensures NormalizeFields(Put(fs, key, val)) == Put(fs, key, val)
  {
    if fs.Field? && fs.key != key {
      PutKeepsSlots(fs.rest, key, val);
    }
  }

  lemma EditKeepsSlots(fs: Fields)
    requires NormalizeFields(fs) == fs
    ensures NormalizeFields(EditNode(fs)) == EditNode(fs)
  {
    var a := Pop(fs, "default");
    PopKeepsSlots(fs, "default");
    PopAllKeepsSlots(a, SAFE_REF_ANNOTATIONS);
    var s := StripNode(fs);
    if Has(s, "properties") && Get(s, "properties").value.Obj? {
      var required := Strings(Names(Get(s, "properties").value.fields));
      assert NormalizeValue("required", required) == required;
      PutKeepsSlots(s, "required", required);
      PutKeepsSlots(Put(s, "required", required), "additionalProperties", Bool(false));
    }
  }

  /** Normalising any schema tree yields a tree that normalisation leaves alone. */
  lemma {:induction false} NormalizeIsNormal(fs: Fields)
    ensures Normal(Normalize(fs))
    decreases fs, 1
  {
    var x := NormalizeFields(fs);
    SlotsAreNormal(fs);
    EditKeepsSlots(x);
    EditNodeEdits(x);
  }

  lemma {:induction false} SlotsAreNormal(fs: Fields)
    ensures NormalizeFields(NormalizeFields(fs)) == NormalizeFields(fs)
    decreases fs, 0
  {
    if fs.Field? {
      SlotsAreNormal(fs.rest);
      match fs.val
      case Obj(members) =>
        MembersAreNormal(members);
        NormalizeIsNormal(members);
        NormalIsFixed(Normalize(members));
      case Arr(items) => ItemsAreNormal(items);
      case _ =>
    }
  }

  lemma {:induction false} MembersAreNormal(ms: Fields)
    ensures NormalizeMembers(NormalizeMembers(ms)) == NormalizeMembers(ms)
    decreases ms, 0
  {
    if ms.Field? {
      MembersAreNormal(ms.rest);
      if ms.val.Obj? {
        NormalizeIsNormal(ms.val.fields);
        NormalIsFixed(Normalize(ms.val.fields));
      }
    }
  }

  lemma {:induction false} ItemsAreNormal(items: seq<Json>)
    ensures NormalizeItems(NormalizeItems(items)) == NormalizeItems(items)
    decreases items, 0
  {
    if items != [] {
      ItemsAreNormal(items[1..]);
      assert items decreases to items[0];
      if items[0].Obj? {
        NormalizeIsNormal(items[0].fields);
        NormalIsFixed(Normalize(items[0].fields));
      }
    }
  }

  /** Normalising twice is normalising once. */
  lemma NormalizeIdempotent(fs: Fields)
    ensures Normalize(Normalize(fs)) == Normalize(fs)
  {
    NormalizeIsNormal(fs);
    NormalIsFixed(Normalize(fs));
  }

  lemma {:induction false} SlotIsFixed(n: Fields, key: string)
    requires NormalizeFields(n) == n && Has(n, key)
    ensures NormalizeValue(key, Get(n, key).value) == Get(n, key).value
  {
    if n.key != key {
      SlotIsFixed(n.rest, key);
    }
  }

  lemma {:induction false} MemberIsNormal(keyword: string, ms: Fields, c: Child)
    requires NormalizeMembers(ms) == ms && c in MemberChildren(keyword, ms)
    ensures Normal(c.node)
  {
    var Field(name, val, rest) := ms;
    if val.Obj? && c == Child("/" + keyword + "/" + Escape(name), true, val.fields) {
      NormalizeIsNormal(val.fields);
    } else {
      MemberIsNormal(keyword, rest, c);
    }
  }

  lemma ItemIsFixed(items: seq<Json>, i: nat)
    requires NormalizeItems(items) == items && i < |items| && items[i].Obj?
    ensures Normal(items[i].fields)
  {
    NormalizeIsNormal(items[i].fields);
  }

  lemma {:induction false} ItemIsNormal(keyword: string, items: seq<Json>, index: nat, c: Child)
    requires index <= |items| && NormalizeItems(items) == items
    requires c in ItemChildren(keyword, items, index)
    ensures Normal(c.node)
    decreases |items| - index
  {
    if items[index].Obj? {
      ItemIsFixed(items, index);
    }
    if c in ItemChildren(keyword, items, index + 1) {
      ItemIsNormal(keyword, items, index + 1, c);
    }
  }

  lemma ChildIsNormal(n: Fields, c: Child)
    requires Normal(n) && c in IterChildren(StrictSlots(), n)
    ensures Normal(c.node)
  {
    var keyword :| keyword in StrictSlots().All() && c in ChildrenOf(StrictSlots(), n, keyword);
    SlotIsFixed(n, keyword);
    match Get(n, keyword).value
    case Obj(members) =>
      if keyword in StrictSlots().maps {
        MemberIsNormal(keyword, members, c);
      } else {
        NormalizeIsNormal(members);
      }
    case Arr(items) => ItemIsNormal(keyword, items, 0, c);
    case _ =>
  }

  lemma {:induction false} WalkIsNormal(fs: Fields, path: string, plain: bool, e: Entry)
    requires Normal(fs) && e in Walk(StrictSlots(), fs, path, plain)
    ensures Normal(e.node)
    decreases fs
  {
    if e != Entry(path, plain, fs) {
      var c := WalkAllFrom(StrictSlots(), fs, IterChildren(StrictSlots(), fs), path, plain, e);
      ChildIsNormal(fs, c);
      WalkIsNormal(c.node, path + c.suffix, plain && c.plain, e);
    }
  }

  // ---- violations ----

  datatype Kind =
    | DefaultPresent | RefSiblings | RefNotLocal | RefUnresolved | Unconstrained
    | MissingProperties | RequiredMismatch | NotClosed | MissingItems

  datatype Violation = Violation(path: string, kind: Kind)

  /** The members of `_SCHEMA_ASSERTION_KEYWORDS`. */
  predicate IsAssertionKeyword(k: string) {
    k in ["$ref", "allOf", "anyOf", "const", "contains", "else", "enum", "exclusiveMaximum",
          "exclusiveMinimum", "format", "if", "items", "maxItems", "maxLength", "maxProperties",
          "maximum", "minItems", "minLength", "minProperties", "minimum", "multipleOf", "not",
          "oneOf", "pattern", "prefixItems", "properties", "then", "type"]
  }

  predicate HasType(n: Fields, expected: string) {
    match Get(n, "type")
    case Some(Str(t)) => t == expected
    case Some(Arr(ts)) => Str(expected) in ts
    case _ => false
  }

  predicate IsObjectNode(n: Fields) {
    HasType(n, "object") || Has(n, "properties") || Has(n, "additionalProperties")
  }

  predicate IsUnconstrained(n: Fields) {
    forall k | k in Names(n) :: !IsAssertionKeyword(k)
  }

  /** `node.get("$ref") is not None`. */
  predicate HasReference(n: Fields) {
    Has(n, "$ref") && Get(n, "$ref").value != Null
  }

  predicate HasSiblings(n: Fields) {
    exists k | k in Names(n) :: k != "$ref"
  }

  function When(condition: bool, kind: Kind): seq<Kind> {
    if condition then [kind] else []
  }

  function ReferenceViolations(root: Fields, n: Fields): seq<Kind> {
    if !HasReference(n) then []
    else
      var reference := Get(n, "$ref").value;
      When(HasSiblings(n), RefSiblings)
      + (if !reference.Str? || !IsLocal(reference.s) then [RefNotLocal]
         else
           var target := Resolve(Obj(root), reference.s);
           When(target == None || target == Some(Null), RefUnresolved))
  }

  function ObjectViolations(n: Fields): seq<Kind> {
    if !IsObjectNode(n) then []
    else
      (match Get(n, "properties")
       case Some(Obj(ps)) => When(Get(n, "required") != Some(Strings(Names(ps))), RequiredMismatch)
       case _ => [MissingProperties])
      + When(Get(n, "additionalProperties") != Some(Bool(false)), NotClosed)
  }

  predicate ItemsMissing(n: Fields) {
    HasType(n, "array") && !(Has(n, "items") && Get(n, "items").value.Obj?)
  }

  function Gather(a: bool, reference: seq<Kind>, b: bool, obj: seq<Kind>, c: bool): (r: seq<Kind>)
    ensures forall k :: k in r <==>
              || (a && k == DefaultPresent) || k in reference || (b && k == Unconstrained)
              || k in obj || (c && k == MissingItems)
    ensures r == [] <==> !a && reference == [] && !b && obj == [] && !c
  {
    When(a, DefaultPresent) + reference + When(b, Unconstrained) + obj + When(c, MissingItems)
  }

  /** What `_find_strict_schema_violations` reports at one node. */
  function NodeViolations(root: Fields, n: Fields): seq<Kind> {
    Gather(Has(n, "default"), ReferenceViolations(root, n), IsUnconstrained(n), ObjectViolations(n), ItemsMissing(n))
  }

  /** No node of the schema has a violation. */
  predicate Strict(root: Fields) {
    forall n | n in Nodes(StrictSlots(), root) :: NodeViolations(root, n) == []
  }

  /** The violation reports on one of these entries. */
  ghost predicate Reported(report: Fields -> seq<Kind>, entries: seq<Entry>, v: Violation) {
    exists e :: e in entries && v.path == e.path && v.kind in report(e.node)
  }

  method Collect(report: Fields -> seq<Kind>, entries: seq<Entry>) returns (violations: seq<Violation>)
    ensures forall v :: v in violations <==> Reported(report, entries, v)
    ensures violations == [] <==> forall e | e in entries :: report(e.node) == []
  {
    violations := [];
    for i := 0 to |entries|
      invariant forall v :: v in violations <==> Reported(report, entries[..i], v)
    {
      var e, before := entries[i], violations;
      var kinds := report(e.node);
      for j := 0 to |kinds|
        invariant forall v :: v in violations <==> v in before || (v.path == e.path && v.kind in kinds[..j])
      {
        violations := violations + [Violation(e.path, kinds[j])];
        assert kinds[..j + 1] == kinds[..j] + [kinds[j]];
      }
      assert kinds[..] == kinds;
      assert entries[..i + 1] == entries[..i] + [e];
      forall v | v in violations ensures Reported(report, entries[..i + 1], v) {
        if v !in before {
          assert e in entries[..i + 1];
        }
      }
    }
    assert entries[..] == entries;
    forall e | e in entries && report(e.node) != [] ensures violations != [] {
      var v := Violation(e.path, report(e.node)[0]);
      assert v.kind in report(e.node);
      assert v in violations;
    }
    if violations != [] {
      assert violations[0] in violations;
      assert Reported(report, entries, violations[0]);
    }
  }

  /** `_find_strict_schema_violations`: exactly the violations of the visited nodes. */
  method FindStrictSchemaViolations(schema: Fields) returns (violations: seq<Violation>)
    ensures forall v :: v in violations <==>
              Reported(n => NodeViolations(schema, n), Walk(StrictSlots(), schema, "$", true), v)
    ensures violations == [] <==> Strict(schema)
  {
    var entries := Walk(StrictSlots(), schema, "$", true);
    violations := Collect(n => NodeViolations(schema, n), entries);
    assert forall e | e in entries :: e.node in Nodes(StrictSlots(), schema);
  }

  lemma ReferenceResidue(root: Fields, n: Fields)
    requires Edited(n)
    ensures forall k | k in ReferenceViolations(root, n) :: k in [RefSiblings, RefNotLocal, RefUnresolved]
    ensures RefSiblings in ReferenceViolations(root, n) ==>
              exists k :: k in Names(n) && k != "$ref" && k !in SAFE_REF_ANNOTATIONS
  {
    if RefSiblings in ReferenceViolations(root, n) {
      var k :| k in Names(n) && k != "$ref";
      assert Has(n, k);
    }
  }

  lemma ObjectResidue(n: Fields)
    requires Edited(n)
    ensures ObjectViolations(n) == [] || ObjectViolations(n) == [MissingProperties]
         || ObjectViolations(n) == [MissingProperties, NotClosed]
  {
  }

  ghost predicate Residue(n: Fields, kinds: seq<Kind>) {
    && DefaultPresent !in kinds
    && RequiredMismatch !in kinds
    && (NotClosed in kinds ==> MissingProperties in kinds)
    && (RefSiblings in kinds ==> exists k :: k in Names(n) && k != "$ref" && k !in SAFE_REF_ANNOTATIONS)
  }

  lemma GatherResidue(n: Fields, reference: seq<Kind>, b: bool, obj: seq<Kind>, c: bool)
    requires forall k | k in reference :: k in [RefSiblings, RefNotLocal, RefUnresolved]
    requires RefSiblings in reference ==> exists k :: k in Names(n) && k != "$ref" && k !in SAFE_REF_ANNOTATIONS
    requires obj == [] || obj == [MissingProperties] || obj == [MissingProperties, NotClosed]
    ensures Residue(n, Gather(false, reference, b, obj, c))
  {
  }

  /** After normalisation no visited node carries a default, no declared object has a
      `required` list other than its property names, an object can only be open when it also
      declares no properties, and beside a `$ref` only non-annotation keywords can remain. */
  lemma NormalizeResidue(schema: Fields, e: Entry)
    requires e in Walk(StrictSlots(), Normalize(schema), "$", true)
    ensures Residue(e.node, NodeViolations(Normalize(schema), e.node))
  {
    var root, n := Normalize(schema), e.node;
    NormalizeIsNormal(schema);
    WalkIsNormal(root, "$", true, e);
    ReferenceResidue(root, n);
    ObjectResidue(n);
    GatherResidue(n, ReferenceViolations(root, n), IsUnconstrained(n), ObjectViolations(n), ItemsMissing(n));
  }
}
