/** The Gemini wire view of a strict schema, `specialize_provider_output_schema` before
    inlining (common/provider_schema_compatibility.py), and the proof that it only relaxes. */
module GeminiWire {
  import opened Json
  import opened Pointer
  import opened SchemaWalk
  import StrictSchema

  const G_MAPS: seq<string> := ["$defs", "definitions", "properties"]
  const G_SINGLES: seq<string> := ["items", "additionalProperties"]
  const G_ARRAYS: seq<string> := ["anyOf", "oneOf", "allOf", "prefixItems"]

  /** The keyword tables of `_walk_schema_nodes`. */
  function GeminiSlots(): Slots {
    Slots(G_MAPS, G_SINGLES, G_ARRAYS, false)
  }

  // ---- the edits at one node ----

  /** Python `==` between JSON values, where `True == 1` and key order is ignored. */
  predicate PyEq(a: Json, b: Json)
    decreases a
  {
    match (a, b)
    case (Bool(p), Num(n)) => (if p then 1.0 else 0.0) == n
    case (Num(n), Bool(p)) => (if p then 1.0 else 0.0) == n
    case (Arr(xs), Arr(ys)) => |xs| == |ys| && forall i | 0 <= i < |xs| :: PyEq(xs[i], ys[i])
    case (Obj(fs), Obj(gs)) =>
      && (forall k | k in Names(gs) :: Has(fs, k))
      && (forall k | k in Names(fs) :: Has(gs, k) && PyEq(Get(fs, k).value, Get(gs, k).value))
    case _ => a == b
  }

  /** `node.get("enum") is None`. */
  predicate NoEnum(fs: Fields) {
    !Has(fs, "enum") || Get(fs, "enum").value == Null
  }

  /** The conflict the code refuses: a constant outside the enumeration beside it. */
  predicate ConstConflict(fs: Fields) {
    && Has(fs, "const")
    && !NoEnum(fs)
    && Get(fs, "enum").value.Arr?
    && var vals := Get(fs, "enum").value.items;
       forall i | 0 <= i < |vals| :: !PyEq(Get(fs, "const").value, vals[i])
  }

  /** A constant becomes a singleton enumeration, or is absorbed by the one beside it. */
  function ConstToEnum(fs: Fields): Fields {
    match Get(fs, "const")
    case None => fs
    case Some(c) => if NoEnum(fs) then Put(Pop(fs, "const"), "enum", Arr([c])) else Pop(fs, "const")
  }

  /** Keywords Pydantic checks after generation instead. */
  function LocalOnly(): seq<string> {
    ["minLength", "maxLength", "pattern", "minItems", "maxItems", "title"]
  }

  predicate SupportedFormat(f: Json) {
    f == Str("date-time") || f == Str("date") || f == Str("time")
  }

  function DropFormat(fs: Fields): Fields {
    match Get(fs, "format")
    case Some(f) => if SupportedFormat(f) then fs else Pop(fs, "format")
    case None => fs
  }

  function EditWire(fs: Fields): Fields {
    DropFormat(PopAll(ConstToEnum(fs), LocalOnly()))
  }

  // ---- the tree ----

  /** The wire form of a node: its own edits, and the wire forms of its subschemas. */
  function Wire(fs: Fields): Fields
    decreases fs, 1
  {
    EditWire(WireFields(fs))
  }

  function WireNode(j: Json): Json
    decreases j
  {
    if j.Obj? then Obj(Wire(j.fields)) else j
  }

  function WireFields(fs: Fields): (r: Fields)
    ensures forall k :: Get(r, k) == (match Get(fs, k) case None => None case Some(v) => Some(WireValue(k, v)))
    decreases fs, 0
  {
    match fs
    case Empty => Empty
    case Field(k, v, rest) => Field(k, WireValue(k, v), WireFields(rest))
  }

  function WireValue(keyword: string, v: Json): Json
    decreases v, 2
  {
    match v
    case Obj(members) =>
      if keyword in G_MAPS then Obj(WireMembers(members))
      else if keyword in G_SINGLES then Obj(Wire(members))
      else v
    case Arr(items) => if keyword in G_ARRAYS then Arr(WireItems(items)) else v
    case _ => v
  }

  function WireMembers(ms: Fields): (r: Fields)
    ensures forall k :: Get(r, k) == (match Get(ms, k) case None => None case Some(v) => Some(WireNode(v)))
    ensures Names(r) == Names(ms)
    decreases ms, 0
  {
    match ms
    case Empty => Empty
    case Field(k, v, rest) => Field(k, WireNode(v), WireMembers(rest))
  }

  function WireItems(items: seq<Json>): (r: seq<Json>)
    ensures |r| == |items|
    ensures forall i | 0 <= i < |items| :: r[i] == WireNode(items[i])
    decreases items, 0
  {
    if items == [] then []
    else
      assert items decreases to items[0];
      [WireNode(items[0])] + WireItems(items[1..])
  }

  /** Some visited node has a constant that conflicts with its enumeration. */
  predicate Conflicted(root: Fields) {
    exists n | n in Nodes(GeminiSlots(), root) :: ConstConflict(n)
  }

  datatype SchemaError = ConstConflictsWithEnum | CyclicReference | NonLocalReference | UnresolvedReference
                       | RootNotObject | NotStrict | NotGeminiCompatible

  /** The synchronous Gemini view: `specialize_provider_output_schema` without inlining. */
  function Specialize(root: Fields): Result<Fields, SchemaError> {
    if Conflicted(root) then Err(ConstConflictsWithEnum) else Ok(Wire(root))
  }

  // ---- what the wire view keeps ----

  predicate IsEdited(key: string) {
    key in LocalOnly() || key == "const" || key == "enum" || key == "format"
  }

  lemma WireGet(fs: Fields, key: string)
    requires !IsEdited(key)
    ensures Get(Wire(fs), key) == (match Get(fs, key) case None => None case Some(v) => Some(WireValue(key, v)))
  {
  }

  lemma DataValue(key: string, v: Json)
    requires key !in G_MAPS && key !in G_SINGLES && key !in G_ARRAYS
    ensures WireValue(key, v) == v
  {
  }

  /** A keyword that is neither edited nor holds subschemas keeps its value. */
  lemma WireKeeps(fs: Fields, key: string)
    requires !IsEdited(key) && key !in G_MAPS && key !in G_SINGLES && key !in G_ARRAYS
    ensures Get(Wire(fs), key) == Get(fs, key)
  {
    WireGet(fs, key);
    if Has(fs, key) {
      DataValue(key, Get(fs, key).value);
    }
  }

  lemma WireGetProperties(fs: Fields)
    ensures Get(Wire(fs), "properties") ==
            (match Get(fs, "properties") case None => None case Some(v) => Some(WireValue("properties", v)))
  {
    WireGet(fs, "properties");
  }

  lemma SingleIsUnedited(key: string)
    requires key in G_SINGLES
    ensures !IsEdited(key) && key !in G_MAPS && key !in G_ARRAYS
  {
    var i :| 0 <= i < |G_SINGLES| && G_SINGLES[i] == key;
  }

  lemma WireSingle(fs: Fields, key: string)
    requires key in G_SINGLES
    ensures Get(Wire(fs), key) == (match Get(fs, key) case None => None case Some(v) => Some(WireNode(v)))
  {
    SingleIsUnedited(key);
    WireGet(fs, key);
  }

  lemma WireGetAdditional(fs: Fields)
    ensures Get(Wire(fs), "additionalProperties") ==
            (match Get(fs, "additionalProperties") case None => None case Some(v) => Some(WireNode(v)))
  {
    assert G_SINGLES[1] == "additionalProperties";
    WireSingle(fs, "additionalProperties");
  }

  // ---- relaxation ----

  /** A pointer that passes only through slots the Gemini walk visits, ending at a schema. */
  predicate SchemaAt(j: Json, steps: seq<string>)
    decreases |steps|
  {
    if steps == [] then j.Obj? || j.Bool?
    else
      && j.Obj?
      && Has(j.fields, steps[0])
      && var child := Get(j.fields, steps[0]).value;
         if steps[0] in G_MAPS then
           |steps| >= 2 && child.Obj? && Has(child.fields, steps[1])
           && SchemaAt(Get(child.fields, steps[1]).value, steps[2..])
         else steps[0] in G_SINGLES && SchemaAt(child, steps[1..])
  }

  predicate RefNamesSchema(root: Fields, n: Fields) {
    match Get(n, "$ref")
    case Some(Str(r)) => IsLocal(r) && Resolve(Obj(root), r).Some? ==> SchemaAt(Obj(root), Steps(r))
    case _ => true
  }

  /** Every reference that resolves names a schema, as JSON Schema requires of `$ref`. */
  ghost predicate RefsNameSchemas(root: Fields) {
    forall n {:trigger RefNamesSchema(root, n)} | n in Nodes(StrictSchema.StrictSlots(), root) ::
        RefNamesSchema(root, n)
  }

  predicate NoNegation(n: Fields) {
    !Has(n, "oneOf") && !Has(n, "not") && !Has(n, "if")
  }

  /** No negation-like keyword, under which relaxing a part would tighten the whole. */
  ghost predicate Monotone(root: Fields) {
    forall n {:trigger NoNegation(n)} | n in Nodes(StrictSchema.StrictSlots(), root) :: NoNegation(n)
  }

  predicate Visited(root: Fields, j: Json) {
    j.Obj? ==> j.fields in Nodes(StrictSchema.StrictSlots(), root)
  }

  lemma WireSlot(fs: Fields, key: string)
    requires key in G_MAPS || key in G_SINGLES
    ensures Get(Wire(fs), key) == (match Get(fs, key) case None => None case Some(v) => Some(WireValue(key, v)))
  {
    assert !IsEdited(key) by {
      if key in G_MAPS {
        var i :| 0 <= i < |G_MAPS| && G_MAPS[i] == key;
      } else {
        var i :| 0 <= i < |G_SINGLES| && G_SINGLES[i] == key;
      }
    }
    WireGet(fs, key);
  }

  lemma SlotsAreStrictSlots(key: string)
    ensures key in G_MAPS ==> key in StrictSchema.MAP_CHILDREN
    ensures key in G_SINGLES ==>
              key in StrictSchema.SINGLE_CHILDREN && key !in StrictSchema.MAP_CHILDREN && key !in G_MAPS
  {
  }

  lemma TwoSteps(j: Json, steps: seq<string>, target: Json)
    requires |steps| >= 2 && j.Obj? && Has(j.fields, steps[0])
    requires Get(j.fields, steps[0]).value.Obj?
    requires Get(Get(j.fields, steps[0]).value.fields, steps[1]) == Some(target)
    ensures Descend(j, steps) == Descend(target, steps[2..])
  {
    assert steps[1..][1..] == steps[2..];
  }

  lemma MapStepWire(root: Fields, fs: Fields, steps: seq<string>, ms: Fields, target: Json)
    requires |steps| >= 2 && steps[0] in G_MAPS && Visited(root, Obj(fs))
    requires Get(fs, steps[0]) == Some(Obj(ms)) && Get(ms, steps[1]) == Some(target)
    ensures Descend(Obj(fs), steps) == Descend(target, steps[2..])
    ensures Descend(Obj(Wire(fs)), steps) == Descend(WireNode(target), steps[2..])
    ensures Visited(root, target)
  {
    SlotsAreStrictSlots(steps[0]);
    WireSlot(fs, steps[0]);
    if target.Obj? {
      MapChildVisited(StrictSchema.StrictSlots(), root, fs, steps[0], ms, steps[1]);
    }
    TwoSteps(Obj(fs), steps, target);
    TwoSteps(Obj(Wire(fs)), steps, WireNode(target));
  }

  lemma SingleStepWire(root: Fields, fs: Fields, steps: seq<string>, target: Json)
    requires steps != [] && steps[0] in G_SINGLES && Visited(root, Obj(fs))
    requires Get(fs, steps[0]) == Some(target)
    requires target.Obj? || target.Bool?
    ensures Descend(Obj(fs), steps) == Descend(target, steps[1..])
    ensures Descend(Obj(Wire(fs)), steps) == Descend(WireNode(target), steps[1..])
    ensures Visited(root, target)
  {
    SlotsAreStrictSlots(steps[0]);
    WireSlot(fs, steps[0]);
    if target.Obj? {
      SingleChildVisited(StrictSchema.StrictSlots(), root, fs, steps[0], target.fields);
    }
  }

  /** The wire view moves a named schema along with everything else. */
  lemma {:induction false} DescendWire(root: Fields, j: Json, steps: seq<string>)
    requires SchemaAt(j, steps) && Visited(root, j)
    ensures Descend(j, steps).Some? && Visited(root, Descend(j, steps).value)
    ensures Descend(WireNode(j), steps) == Some(WireNode(Descend(j, steps).value))
    decreases |steps|
  {
    if steps != [] {
      var child := Get(j.fields, steps[0]).value;
      if steps[0] in G_MAPS {
        var target := Get(child.fields, steps[1]).value;
        MapStepWire(root, j.fields, steps, child.fields, target);
        DescendWire(root, target, steps[2..]);
      } else {
        assert child.Obj? || child.Bool?;
        SingleStepWire(root, j.fields, steps, child);
        DescendWire(root, child, steps[1..]);
      }
    }
  }
}
