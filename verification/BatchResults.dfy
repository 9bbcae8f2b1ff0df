/** What the batch passes promise as a whole (providers/openrouter_provider.py,
    common/provider_schema_compatibility.py): the schema that is sent needs no reference, means
    what the specialised schema meant, and has lost no property. */
module BatchResults {
  import opened Collections
  import opened Json
  import opened Pointer
  import opened SchemaWalk
  import opened SchemaSemantics
  import opened GeminiWire
  import opened Inline
  import opened BatchPipeline
  import GeminiRelaxation
  import StrictSchema

  // ---- distinct keys survive the wire edits ----

  lemma {:induction false} PopUnique(fs: Fields, key: string)
    requires UniqueFields(fs)
    ensures UniqueFields(Pop(fs, key))
  {
    if fs.Field? {
      PopUnique(fs.rest, key);
    }
  }

  lemma {:induction false} PopAllUnique(fs: Fields, keys: seq<string>)
    requires UniqueFields(fs)
    ensures UniqueFields(PopAll(fs, keys))
    decreases |keys|
  {
    if keys != [] {
      PopUnique(fs, keys[0]);
      PopAllUnique(Pop(fs, keys[0]), keys[1..]);
    }
  }

  lemma {:induction false} PutUnique(fs: Fields, key: string, val: Json)
    requires UniqueFields(fs) && UniqueKeys(val)
    ensures UniqueFields(Put(fs, key, val))
  {
    if fs.Field? && fs.key != key {
      PutUnique(fs.rest, key, val);
    }
  }

  lemma EditUnique(fs: Fields)
    requires UniqueFields(fs)
    ensures UniqueFields(EditWire(fs))
  {
    var a := ConstToEnum(fs);
    if Has(fs, "const") {
      var c := Get(fs, "const").value;
      UniqueGet(fs, "const");
      PopUnique(fs, "const");
      PutUnique(Pop(fs, "const"), "enum", Arr([c]));
    }
    assert UniqueFields(a);
    var b := PopAll(a, LocalOnly());
    PopAllUnique(a, LocalOnly());
    PopUnique(b, "format");
  }

  lemma {:induction false} WireUnique(fs: Fields)
    requires UniqueFields(fs)
    ensures UniqueFields(Wire(fs))
    decreases fs, 1
  {
    WireFieldsUnique(fs);
    EditUnique(WireFields(fs));
  }

  lemma {:induction false} WireFieldsUnique(fs: Fields)
    requires UniqueFields(fs)
    ensures UniqueFields(WireFields(fs))
    decreases fs, 0
  {
    if fs.Field? {
      WireFieldsUnique(fs.rest);
      WireValueUnique(fs.key, fs.val);
    }
  }

  lemma {:induction false} WireNodeUnique(j: Json)
    requires UniqueKeys(j)
    ensures UniqueKeys(WireNode(j))
    decreases j, 2
  {
    if j.Obj? {
      WireUnique(j.fields);
    }
  }

  lemma {:induction false} WireValueUnique(keyword: string, v: Json)
    requires UniqueKeys(v)
    ensures UniqueKeys(WireValue(keyword, v))
    decreases v, 3
  {
    match v
    case Obj(members) =>
      WireMembersUnique(members);
      WireUnique(members);
    case Arr(items) =>
      forall i | 0 <= i < |items| ensures UniqueKeys(WireNode(items[i])) {
        WireNodeUnique(items[i]);
      }
    case _ =>
  }

  lemma {:induction false} WireMembersUnique(ms: Fields)
    requires UniqueFields(ms)
    ensures UniqueFields(WireMembers(ms))
    decreases ms, 0
  {
    if ms.Field? {
      WireMembersUnique(ms.rest);
      WireNodeUnique(ms.val);
    }
  }

  // ---- no reference is left ----

  /** What the proof needs of a subschema: it is one of the run, and the schema that is sent
      has only supported keywords and distinct keys. */
  ghost predicate Clear(r: Run) {
    UniqueFields(r.root) && UniqueKeys(r.w) && Supported(r.out)
  }

  lemma Keyword(r: Run, n: Fields, stack: seq<string>, fuel: nat, k: string)
    requires Clear(r) && NodeAt(r, n, stack, fuel) && Has(Image(r, n, stack), k)
    ensures IsSupported(k)
  {
    assert NodeSupported(Image(r, n, stack));
    assert k in Names(Image(r, n, stack));
  }

  /** The keywords that hold data, or annotations, or nothing. */
  predicate IsPlain(k: string) {
    IsData(k) || k == "$id" || k == "$anchor" || k == "description" || k == "$ref"
  }

  lemma PlainIsFlat(r: Run, n: Fields, k: string)
    requires NodeReady(r, n) && Reference(n).None? && IsPlain(k)
    ensures FlatAt(Wire(n), k)
  {
    if IsData(k) {
      ReadyIsShaped(r, n);
      WiredDataIsFlat(n, k);
    } else {
      WireKeeps(n, k);
    }
  }

  lemma PlainHasNoRefs(r: Run, n: Fields, stack: seq<string>, fuel: nat, k: string)
    requires NodeAt(r, n, stack, fuel) && IsPlain(k) && Has(Image(r, n, stack), k)
    ensures RefsIn(Get(Image(r, n, stack), k).value) == {}
    ensures k == "$ref" ==> Reference(Image(r, n, stack)).None?
  {
    hide NodeReady, ExpandFields;
    assert NodeReady(r, n);
    PlainIsFlat(r, n, k);
    DataKept(r.w, Wire(n), stack, k);
    FlatHasNoRefs(Get(Wire(n), k).value);
    GeminiRelaxation.WireGetRef(n);
  }

  /** Where a supported keyword that survives the wire edits belongs. */
  lemma KeywordKinds(n: Fields, k: string)
    requires IsSupported(k) && Has(Wire(n), k) && !IsDefs(k)
    ensures IsPlain(k) || k == "items" || k == "anyOf" || k == "oneOf" || k == "prefixItems" || k == "properties"
            || k == "additionalProperties"
  {
    if GeminiRelaxation.IsPopped(k) {
      GeminiRelaxation.WirePops(n, k);
    }
    NotPopped(k);
  }

  lemma NotPopped(k: string)
    requires IsSupported(k) && !GeminiRelaxation.IsPopped(k) && !IsDefs(k)
    ensures IsPlain(k) || k == "items" || k == "anyOf" || k == "oneOf" || k == "prefixItems" || k == "properties"
            || k == "additionalProperties"
  {
    assert k != "title" && k != "minItems" && k != "maxItems" by {
      assert LocalOnly()[5] == "title" && LocalOnly()[3] == "minItems" && LocalOnly()[4] == "maxItems";
    }
  }

  lemma {:induction false} ListIsClear(r: Run, n: Fields, stack: seq<string>, fuel: nat, k: string)
    requires Clear(r) && NodeAt(r, n, stack, fuel) && SchemasAtKey(n, k) && Has(Image(r, n, stack), k)
    requires k == "anyOf" || k == "oneOf" || k == "prefixItems"
    ensures RefsIn(Get(Image(r, n, stack), k).value) == {}
    decreases RefsIn(r.w) - Elems(stack), n, 0
  {
    hide Wire, Expand, ExpandFields;
    BranchesOf(r, n, stack, fuel, k);
    var subs := Get(n, k).value.items;
    var xs := Get(Image(r, n, stack), k).value.items;
    forall i | 0 <= i < |xs| ensures RefsIn(xs[i]) == {} {
      assert At(r, subs[i], stack, fuel);
      IsClear(r, subs[i], stack, fuel);
    }
    RefsByItem(xs);
  }

  lemma {:induction false} PropertiesAreClear(r: Run, n: Fields, stack: seq<string>, fuel: nat, ps: Fields)
    requires Clear(r) && NodeAt(r, n, stack, fuel) && Get(n, "properties") == Some(Obj(ps)) && MembersAreSchemas(ps)
    requires Get(n, "required") == Some(StrictSchema.Strings(Names(ps))) && UniqueFields(Wire(n))
    ensures Has(Image(r, n, stack), "properties") && RefsIn(Get(Image(r, n, stack), "properties").value) == {}
    decreases RefsIn(r.w) - Elems(stack), ps, 0
  {
    hide At, NodeAt, Wire, Expand, ExpandFields, Clear;
    var xs := PropertiesAt(r, n, stack, fuel, ps);
    forall k | Has(xs, k) ensures RefsIn(Get(xs, k).value) == {} && !Get(xs, k).value.Str? {
      assert k in Names(xs) && k in Names(ps);
      PropertyAt(r, n, stack, fuel, ps, xs, k);
      IsClear(r, Get(ps, k).value, stack, fuel);
    }
    PropertiesUnique(r, n, stack, ps, xs);
    MapIsClear(xs);
  }

  lemma PropertiesUnique(r: Run, n: Fields, stack: seq<string>, ps: Fields, xs: Fields)
    requires Clear(r) && UniqueFields(Wire(n)) && Get(Wire(n), "properties") == Some(Obj(WireMembers(ps)))
    requires RefsInFields(WireMembers(ps)) <= RefsIn(r.w) && ExpandFields(r.w, WireMembers(ps), stack) == Ok(xs)
    ensures UniqueFields(xs)
  {
    hide Supported;
    UniqueGet(Wire(n), "properties");
    ExpandFieldsUnique(r.w, WireMembers(ps), stack);
  }

  lemma MapIsClear(xs: Fields)
    requires UniqueFields(xs) && forall k | Has(xs, k) :: RefsIn(Get(xs, k).value) == {} && !Get(xs, k).value.Str?
    ensures RefsIn(Obj(xs)) == {}
  {
    RefsByKey(xs);
  }

  lemma {:induction false} KeywordIsClear(r: Run, n: Fields, stack: seq<string>, fuel: nat, k: string)
    requires Clear(r) && NodeAt(r, n, stack, fuel) && NodeReady(r, n) && UniqueFields(Wire(n))
    requires Has(Image(r, n, stack), k)
    ensures RefsIn(Get(Image(r, n, stack), k).value) == {}
    decreases RefsIn(r.w) - Elems(stack), n, 1
  {
    hide Wire, Expand, ExpandFields, Clear, Supported, IsPlain, IsData, IsSupported, Good;
    Keyword(r, n, stack, fuel, k);
    ExpandFieldsGet(r.w, Wire(n), stack, k);
    KeywordKinds(n, k);
    ReadyIsShaped(r, n);
    if IsPlain(k) {
      PlainHasNoRefs(r, n, stack, fuel, k);
    } else if k == "items" {
      ItemsSlot();
      GeminiRelaxation.WireGetItems(n);
      SingleAt(r, n, stack, fuel, "items", Get(n, "items").value);
      IsClear(r, Get(n, "items").value, stack, fuel);
    } else if k == "properties" {
      WireGetProperties(n);
      var ps := Get(n, "properties").value.fields;
      ReadyObject(r, n, ps);
      PropertiesAreClear(r, n, stack, fuel, ps);
    } else if k == "additionalProperties" {
      WireGetAdditional(n);
      AdditionalKept(r, n, stack, fuel);
    } else {
      ListIsClear(r, n, stack, fuel, k);
    }
  }

  lemma ReadyObject(r: Run, n: Fields, ps: Fields)
    requires NodeReady(r, n) && Get(n, "properties") == Some(Obj(ps))
    ensures MembersAreSchemas(ps) && Get(n, "required") == Some(StrictSchema.Strings(Names(ps)))
  {
  }

  lemma {:induction false} IsClear(r: Run, j: Json, stack: seq<string>, fuel: nat)
    requires Clear(r) && At(r, j, stack, fuel)
    ensures var x := Expand(r.w, WireNode(j), stack).value; RefsIn(x) == {} && !x.Str?
    decreases RefsIn(r.w) - Elems(stack), j, 3
  {
    if j.Obj? {
      match Reference(j.fields)
      case Some(name) =>
        var target := TargetAt(r, j.fields, stack, fuel, name);
        FewerLeft(RefsIn(r.w), stack, name);
        IsClear(r, target, stack + [name], fuel - 1);
      case None => NodeIsClear(r, j.fields, stack, fuel);
    }
  }

  lemma {:induction false} NodeIsClear(r: Run, n: Fields, stack: seq<string>, fuel: nat)
    requires Clear(r) && At(r, Obj(n), stack, fuel) && Reference(n).None?
    ensures var x := Expand(r.w, Obj(Wire(n)), stack).value; RefsIn(x) == {} && !x.Str?
    decreases RefsIn(r.w) - Elems(stack), n, 2
  {
    hide Wire, Expand, ExpandFields, Supported, NodeReady;
    WholeIsNode(r, n, stack, fuel);
    NodesAreUnique(StrictSchema.StrictSlots(), r.root, n);
    WireUnique(n);
    var x := Image(r, n, stack);
    ExpandFieldsUnique(r.w, Wire(n), stack);
    forall k | Has(x, k) ensures RefsIn(Get(x, k).value) == {} {
      KeywordIsClear(r, n, stack, fuel, k);
    }
    RefsByKey(x);
    ImageIsNoReference(r, n, stack, fuel);
  }

  lemma ImageIsNoReference(r: Run, n: Fields, stack: seq<string>, fuel: nat)
    requires NodeAt(r, n, stack, fuel)
    ensures Reference(Image(r, n, stack)).None?
  {
    if Has(Image(r, n, stack), "$ref") {
      PlainHasNoRefs(r, n, stack, fuel, "$ref");
    }
  }

  // ---- the results ----

  lemma OutIsSupported(root: Fields)
    requires BatchSchema(root).Ok?
    ensures Supported(BatchSchema(root).value)
  {
    PassesOk(root);
  }

  /** The schema that is sent has no reference and no definitions key at any depth. */
  lemma BatchCloses(root: Fields)
    requires StrictSchema.Strict(root) && WellFormed(root) && BatchSchema(root).Ok?
    ensures RefsIn(Obj(BatchSchema(root).value)) == {}
    ensures DefsFree(Obj(BatchSchema(root).value))
  {
    hide Wire, Expand, BatchSchema, Supported, StrictSchema.Strict;
    PassesOk(root);
    InlineCloses(Wire(root));
    var fuel := |RefsIn(Obj(Wire(root)))|;
    var r := RunStarts(root, fuel);
    OutIsSupported(root);
    WireUnique(root);
    IsClear(r, Obj(root), [], fuel);
  }

  /** When the passes succeed, the schema that is sent is free of references and definitions,
      and accepts exactly the values the specialised schema accepted through its references,
      whatever a reference would name. */
  lemma BatchKeepsMeaning(env: Env, root: Fields, v: Json, fuel: nat, o: Resolver, more: nat)
    requires StrictSchema.Strict(root) && WellFormed(root) && BatchSchema(root).Ok?
    requires fuel >= |RefsIn(Obj(Wire(root)))|
    ensures var out := Obj(BatchSchema(root).value);
            && RefsIn(out) == {} && DefsFree(out)
            && (Accepts(env, Locals(Obj(Wire(root))), Obj(Wire(root)), v, fuel) <==> Accepts(env, o, out, v, more))
  {
    BatchCloses(root);
    SentAcceptsSame(env, root, v, fuel, o, more);
  }

  /** Nothing the canonical schema accepts is refused by the schema that is sent. */
  lemma BatchRelaxes(env: Env, root: Fields, v: Json, fuel: nat, o: Resolver, more: nat)
    requires StrictSchema.Strict(root) && WellFormed(root) && Monotone(root) && BatchSchema(root).Ok?
    requires fuel >= |RefsIn(Obj(Wire(root)))| && Accepts(env, Locals(Obj(root)), Obj(root), v, fuel)
    ensures Accepts(env, o, Obj(BatchSchema(root).value), v, more)
  {
    GeminiRelaxation.SpecializeRelaxes(env, root, v, fuel);
    SentAcceptsSame(env, root, v, fuel, o, more);
  }

  // ---- lost properties ----

  /** One step of inlining outside the definitions: what a reference names, or a subschema. */
  ghost predicate Below(root: Fields, n: Fields, m: Fields) {
    match Reference(n)
    case Some(name) => IsLocal(name) && Resolve(Obj(root), name) == Some(Obj(m))
    case None =>
      || (exists ps, k :: Get(n, "properties") == Some(Obj(ps)) && Get(ps, k) == Some(Obj(m)))
      || Get(n, "items") == Some(Obj(m))
      || (exists keyword, subs ::
            (keyword == "anyOf" || keyword == "oneOf" || keyword == "prefixItems")
            && Get(n, keyword) == Some(Arr(subs)) && Obj(m) in subs)
  }

  /** The way inlining takes from the root to its last node. */
  ghost predicate IsPath(root: Fields, path: seq<Fields>) {
    path != [] && path[0] == root && forall i | 1 <= i < |path| :: Below(root, path[i - 1], path[i])
  }

  lemma PropertyBelow(r: Run, n: Fields, stack: seq<string>, fuel: nat, ps: Fields, k: string)
    requires NodeAt(r, n, stack, fuel) && NodeReady(r, n) && Get(n, "properties") == Some(Obj(ps)) && Has(ps, k)
    ensures !IsDefs(k) && At(r, Get(ps, k).value, stack, fuel)
  {
    hide At, NodeAt, NodeReady, Wire, Expand, ExpandFields;
    ReadyObject(r, n, ps);
    var xs := PropertiesAt(r, n, stack, fuel, ps);
    assert k in Names(ps);
    PropertyAt(r, n, stack, fuel, ps, xs, k);
  }

  lemma BranchBelow(r: Run, n: Fields, stack: seq<string>, fuel: nat, keyword: string, subs: seq<Json>, m: Fields)
    requires NodeAt(r, n, stack, fuel) && Shaped(n) && Get(n, keyword) == Some(Arr(subs)) && Obj(m) in subs
    requires keyword == "anyOf" || keyword == "oneOf" || keyword == "prefixItems"
    ensures At(r, Obj(m), stack, fuel)
  {
    hide At, NodeAt;
    BranchesOf(r, n, stack, fuel, keyword);
    var i :| 0 <= i < |subs| && subs[i] == Obj(m);
    assert At(r, subs[i], stack, fuel);
  }

  lemma ItemsBelow(r: Run, n: Fields, stack: seq<string>, fuel: nat, m: Fields)
    requires NodeAt(r, n, stack, fuel) && Shaped(n) && Get(n, "items") == Some(Obj(m))
    ensures At(r, Obj(m), stack, fuel)
  {
    hide At, NodeAt;
    ItemsSlot();
    GeminiRelaxation.WireGetItems(n);
    SingleAt(r, n, stack, fuel, "items", Obj(m));
  }

  lemma NodeBelow(r: Run, n: Fields, stack: seq<string>, fuel: nat, m: Fields)
    requires At(r, Obj(n), stack, fuel) && Reference(n).None? && Below(r.root, n, m)
    ensures At(r, Obj(m), stack, fuel)
  {
    hide At, NodeAt, NodeReady, Shaped;
    WholeIsNode(r, n, stack, fuel);
    if ps, k :| Get(n, "properties") == Some(Obj(ps)) && Get(ps, k) == Some(Obj(m)) {
      PropertyBelow(r, n, stack, fuel, ps, k);
    } else if Get(n, "items") == Some(Obj(m)) {
      ItemsBelow(r, n, stack, fuel, m);
    } else {
      var keyword, subs :| (keyword == "anyOf" || keyword == "oneOf" || keyword == "prefixItems")
                           && Get(n, keyword) == Some(Arr(subs)) && Obj(m) in subs;
      BranchBelow(r, n, stack, fuel, keyword, subs, m);
    }
  }

  lemma StepBelow(r: Run, n: Fields, stack: seq<string>, fuel: nat, m: Fields) returns (further: seq<string>, less: nat)
    requires At(r, Obj(n), stack, fuel) && Below(r.root, n, m) && r.c == Locals(Obj(r.root))
    ensures At(r, Obj(m), further, less)
  {
    hide At, Below, Expand, Wire;
    match Reference(n)
    case None =>
      NodeBelow(r, n, stack, fuel, m);
      further, less := stack, fuel;
    case Some(name) =>
      var target := TargetAt(r, n, stack, fuel, name);
      NamedBelow(r.root, n, name, m);
      further, less := stack + [name], fuel - 1;
  }

  lemma NamedBelow(root: Fields, n: Fields, name: string, m: Fields)
    requires Below(root, n, m) && Reference(n) == Some(name)
    ensures Locals(Obj(root))(name) == Some(Obj(m))
  {
  }

  lemma {:induction false} AlongPath(r: Run, path: seq<Fields>, fuel: nat, i: nat)
      returns (stack: seq<string>, left: nat)
    requires At(r, Obj(r.root), [], fuel) && r.c == Locals(Obj(r.root)) && IsPath(r.root, path) && i < |path|
    ensures At(r, Obj(path[i]), stack, left)
  {
    hide At, Below;
    if i == 0 {
      stack, left := [], fuel;
    } else {
      stack, left := AlongPath(r, path, fuel, i - 1);
      stack, left := StepBelow(r, path[i - 1], stack, left, path[i]);
    }
  }

  lemma KeptProperty(r: Run, n: Fields, stack: seq<string>, fuel: nat, ps: Fields, name: string)
    requires At(r, Obj(n), stack, fuel) && Reference(n).None?
    requires Get(n, "properties") == Some(Obj(ps)) && Has(ps, name)
    ensures !IsDefs(name)
  {
    hide At, NodeAt, NodeReady;
    WholeIsNode(r, n, stack, fuel);
    PropertyBelow(r, n, stack, fuel, ps, name);
  }

  /** A declared property that inlining would lose, because it is named like a definitions
      key, makes the passes fail, at whatever object inlining reaches: the re-validation sees
      `required` differ from the names that are left. */
  lemma LostPropertyIsRejected(root: Fields, path: seq<Fields>, ps: Fields, name: string)
    requires StrictSchema.Strict(root) && WellFormed(root) && IsPath(root, path)
    requires var n := path[|path| - 1];
             Reference(n).None? && Get(n, "properties") == Some(Obj(ps)) && Has(ps, name) && IsDefs(name)
    ensures BatchSchema(root).Err?
  {
    hide At, BatchSchema, WellFormed, StrictSchema.Strict;
    if BatchSchema(root).Ok? {
      var fuel := |RefsIn(Obj(Wire(root)))|;
      var r := RunStarts(root, fuel);
      var stack, left := AlongPath(r, path, fuel, |path| - 1);
      KeptProperty(r, path[|path| - 1], stack, left, ps, name);
    }
  }
}
