/** The schema passes for Gemini batch models, in the order `build_request_body` composes them
    (providers/openrouter_provider.py): specialise, inline, validate again, check the provider's
    subset. When they succeed, the schema that is sent means what the specialised schema with
    its references meant. */
module BatchPipeline {
  import opened Collections
  import opened Json
  import opened Pointer
  import opened SchemaWalk
  import opened SchemaSemantics
  import opened GeminiWire
  import opened Inline
  import GeminiRelaxation
  import StrictSchema

  // ---- the passes ----

  /** The members of `GEMINI_BATCH_SCHEMA_KEYWORDS`. */
  predicate IsSupported(k: string) {
    k in ["$id", "$defs", "$ref", "$anchor", "type", "format", "title", "description", "enum", "items",
          "prefixItems", "minItems", "maxItems", "minimum", "maximum", "anyOf", "oneOf", "properties",
          "additionalProperties", "required"]
  }

  /** What `gemini_schema_violations` demands of one node's keywords. */
  predicate NodeSupported(n: Fields) {
    && (forall k | k in Names(n) :: IsSupported(k))
    && (match Get(n, "format") case None => true case Some(f) => f == Null || SupportedFormat(f))
    && (match Get(n, "anyOf") case Some(Arr(branches)) => |branches| <= 8 case _ => true)
  }

  predicate Supported(root: Fields) {
    forall n | n in Nodes(GeminiSlots(), root) :: NodeSupported(n)
  }

  /** What the checks after inlining hold against a schema. */
  function Refused(x: Fields): Option<SchemaError> {
    if !StrictSchema.Strict(x) then Some(NotStrict)
    else if !Supported(x) then Some(NotGeminiCompatible)
    else None
  }

  /** The schema sent for a batch model, from the validated strict schema. */
  function BatchSchema(root: Fields): Result<Fields, SchemaError> {
    if Conflicted(root) then Err(ConstConflictsWithEnum)
    else
      match InlineRefs(Wire(root))
      case Err(e) => Err(e)
      case Ok(x) =>
        match Refused(x)
        case Some(e) => Err(e)
        case None => Ok(x)
  }

  // ---- schemas as the metaschema allows them ----

  predicate IsSchema(j: Json) {
    j.Obj? || j.Bool?
  }

  predicate IsScalar(j: Json) {
    !j.Obj? && !j.Arr?
  }

  /** A scalar or a list of scalars, as assertion keywords hold. */
  predicate Flat(j: Json) {
    IsScalar(j) || (j.Arr? && forall i | 0 <= i < |j.items| :: IsScalar(j.items[i]))
  }

  /** The assertion keywords that reach the wire; `const` arrives as an `enum`. */
  predicate IsData(k: string) {
    || k == "type" || k == "enum" || k == "required" || k == "minimum" || k == "maximum" || k == "format"
  }

  predicate FlatAt(n: Fields, k: string) {
    Has(n, k) ==> Flat(Get(n, k).value)
  }

  predicate SchemaAtKey(n: Fields, k: string) {
    Has(n, k) ==> IsSchema(Get(n, k).value)
  }

  predicate SchemasAtKey(n: Fields, k: string) {
    Has(n, k) ==>
      var subs := Get(n, k).value; subs.Arr? && forall i | 0 <= i < |subs.items| :: IsSchema(subs.items[i])
  }

  predicate MembersAreSchemas(ms: Fields) {
    forall k | k in Names(ms) :: IsSchema(Get(ms, k).value)
  }

  /** The shapes the metaschema gives each keyword, with scalar constants. */
  predicate Shaped(n: Fields) {
    && FlatAt(n, "type") && FlatAt(n, "enum") && FlatAt(n, "required") && FlatAt(n, "minimum")
    && FlatAt(n, "maximum") && FlatAt(n, "format")
    && FlatAt(n, "$id") && FlatAt(n, "$anchor") && FlatAt(n, "description")
    && (Has(n, "const") ==> IsScalar(Get(n, "const").value))
    && (Has(n, "properties") && Get(n, "properties").value.Obj? ==>
         MembersAreSchemas(Get(n, "properties").value.fields))
    && SchemaAtKey(n, "items")
    && SchemasAtKey(n, "prefixItems") && SchemasAtKey(n, "anyOf") && SchemasAtKey(n, "oneOf")
  }

  /** The schema is well formed for the metaschema, and its dictionaries have distinct keys. */
  ghost predicate WellFormed(root: Fields) {
    && UniqueFields(root) && RefsNameSchemas(root)
    && forall n {:trigger Shaped(n)} | n in Nodes(StrictSchema.StrictSlots(), root) :: Shaped(n)
  }

  // ---- data keywords survive ----

  lemma FlatIsFixed(root: Json, v: Json, stack: seq<string>)
    requires Flat(v)
    ensures RefsIn(v) == {} && Expand(root, v, stack) == Ok(v)
  {
    FlatHasNoRefs(v);
    ExpandFixed(root, v, stack);
  }

  lemma FlatHasNoRefs(v: Json)
    requires Flat(v)
    ensures RefsIn(v) == {} && DefsFree(v)
  {
    if v.Arr? {
      ScalarsHaveNoRefs(v.items);
    }
  }

  lemma {:induction false} ScalarsHaveNoRefs(items: seq<Json>)
    requires forall i | 0 <= i < |items| :: IsScalar(items[i])
    ensures RefsInItems(items) == {}
  {
    if items != [] {
      assert forall i | 0 <= i < |items[1..]| :: items[1..][i] == items[i + 1];
      ScalarsHaveNoRefs(items[1..]);
    }
  }

  lemma DataKept(w: Json, fs: Fields, stack: seq<string>, key: string)
    requires RefsInFields(fs) <= RefsIn(w) && ExpandFields(w, fs, stack).Ok?
    requires !IsDefs(key) && FlatAt(fs, key)
    ensures Get(ExpandFields(w, fs, stack).value, key) == Get(fs, key)
  {
    ExpandFieldsGet(w, fs, stack, key);
    if Has(fs, key) {
      FlatIsFixed(w, Get(fs, key).value, stack);
    }
  }

  /** The keywords whose values decide `Assertions`. */
  predicate IsAssertion(k: string) {
    || IsData(k) || k == "const" || k == "minLength" || k == "maxLength" || k == "minItems" || k == "maxItems"
    || k == "pattern"
  }

  lemma SameAssertions(env: Env, f: Fields, g: Fields, v: Json)
    requires forall k | IsAssertion(k) :: Get(f, k) == Get(g, k)
    ensures Assertions(env, f, v) <==> Assertions(env, g, v)
  {
  }

  lemma WiredDataIsFlat(n: Fields, key: string)
    requires Shaped(n) && IsData(key)
    ensures FlatAt(Wire(n), key)
  {
    if key == "enum" {
      GeminiRelaxation.WireEnum(n);
    } else if key == "format" {
      GeminiRelaxation.WireFormat(n);
    } else if key == "type" {
      GeminiRelaxation.WireKeepsType(n);
    } else if key == "required" {
      GeminiRelaxation.WireKeepsRequired(n);
    } else if key == "minimum" {
      GeminiRelaxation.WireKeepsMinimum(n);
    } else {
      GeminiRelaxation.WireKeepsMaximum(n);
    }
  }

  lemma AssertionIsWired(n: Fields, key: string)
    requires Shaped(n) && IsAssertion(key)
    ensures FlatAt(Wire(n), key)
  {
    if IsData(key) {
      WiredDataIsFlat(n, key);
    } else {
      GeminiRelaxation.WirePops(n, key);
    }
  }

  /** Expansion leaves what a shaped node asserts. */
  lemma NodeAssertionsKept(env: Env, w: Json, n: Fields, stack: seq<string>, v: Json)
    requires Shaped(n) && RefsInFields(Wire(n)) <= RefsIn(w) && ExpandFields(w, Wire(n), stack).Ok?
    ensures Assertions(env, Wire(n), v) <==> Assertions(env, ExpandFields(w, Wire(n), stack).value, v)
  {
    var x := ExpandFields(w, Wire(n), stack).value;
    forall k | IsAssertion(k) ensures Get(Wire(n), k) == Get(x, k) {
      AssertionIsWired(n, k);
      DataKept(w, Wire(n), stack, k);
    }
    SameAssertions(env, Wire(n), x, v);
  }

  // ---- the run of the pipeline the proof follows ----

  /** The canonical schema and its references, the wire schema and its references, and the
      schema that is sent. */
  datatype Run = Run(root: Fields, c: Resolver, w: Json, refs: Resolver, out: Fields)

  /** A declared object lists exactly its property names and is closed. */
  predicate ClosedNode(n: Fields) {
    Has(n, "properties") || Has(n, "additionalProperties") ==>
      && Has(n, "properties") && Get(n, "properties").value.Obj?
      && Get(n, "required") == Some(StrictSchema.Strings(Names(Get(n, "properties").value.fields)))
      && Get(n, "additionalProperties") == Some(Bool(false))
  }

  predicate RefReady(r: Run, n: Fields) {
    match Reference(n)
    case None => Has(n, "$ref") ==> Get(n, "$ref").value == Null
    case Some(name) =>
      && (forall k | k in Names(n) :: k == "$ref")
      && r.c(name).Some? && IsSchema(r.c(name).value) && Visited(r.root, r.c(name).value)
      && r.refs(name) == Some(WireNode(r.c(name).value))
      && Named(r.w, name) == Ok(WireNode(r.c(name).value))
  }

  predicate NodeReady(r: Run, n: Fields) {
    Shaped(n) && ClosedNode(n) && RefReady(r, n)
  }

  predicate OutReady(m: Fields) {
    && (Has(m, "properties") && Get(m, "properties").value.Obj? ==>
          Get(m, "required") == Some(StrictSchema.Strings(Names(Get(m, "properties").value.fields))))
    && !Has(m, "allOf") && !Has(m, "not") && !Has(m, "if")
  }

  /** Both walks visit the node. */
  predicate Landed(out: Fields, x: Json) {
    x.Obj? ==> x.fields in Nodes(StrictSchema.StrictSlots(), out) && x.fields in Nodes(GeminiSlots(), out)
  }

  ghost predicate Good(r: Run) {
    && (forall n {:trigger NodeReady(r, n)} | n in Nodes(StrictSchema.StrictSlots(), r.root) :: NodeReady(r, n))
    && (forall m {:trigger OutReady(m)} | Landed(r.out, Obj(m)) :: OutReady(m))
  }

  /** One subschema of the run: where it is, and what expanding its wire form gave. */
  ghost predicate At(r: Run, j: Json, stack: seq<string>, fuel: nat) {
    && Good(r) && Visited(r.root, j) && IsSchema(j)
    && RefsIn(WireNode(j)) <= RefsIn(r.w) && Expand(r.w, WireNode(j), stack).Ok?
    && Landed(r.out, Expand(r.w, WireNode(j), stack).value)
    && fuel >= |RefsIn(r.w) - Elems(stack)|
  }

  // ---- where children land ----

  lemma LandedMap(out: Fields, m: Fields, keyword: string, ms: Fields, name: string)
    requires Landed(out, Obj(m)) && Get(m, keyword) == Some(Obj(ms)) && Has(ms, name)
    requires keyword in StrictSchema.MAP_CHILDREN && keyword in G_MAPS
    ensures Landed(out, Get(ms, name).value)
  {
    if Get(ms, name).value.Obj? {
      MapChildVisited(StrictSchema.StrictSlots(), out, m, keyword, ms, name);
      MapChildVisited(GeminiSlots(), out, m, keyword, ms, name);
    }
  }

  lemma LandedSingle(out: Fields, m: Fields, keyword: string)
    requires Landed(out, Obj(m)) && Has(m, keyword)
    requires keyword in StrictSchema.SINGLE_CHILDREN && keyword !in StrictSchema.MAP_CHILDREN
    requires keyword in G_SINGLES && keyword !in G_MAPS
    ensures Landed(out, Get(m, keyword).value)
  {
    if Get(m, keyword).value.Obj? {
      SingleChildVisited(StrictSchema.StrictSlots(), out, m, keyword, Get(m, keyword).value.fields);
      SingleChildVisited(GeminiSlots(), out, m, keyword, Get(m, keyword).value.fields);
    }
  }

  lemma LandedList(out: Fields, m: Fields, keyword: string, subs: seq<Json>, i: nat)
    requires Landed(out, Obj(m)) && Get(m, keyword) == Some(Arr(subs)) && i < |subs|
    requires keyword in StrictSchema.ARRAY_CHILDREN && keyword in G_ARRAYS
    ensures Landed(out, subs[i])
  {
    if subs[i].Obj? {
      ListChildVisited(StrictSchema.StrictSlots(), out, m, keyword, subs, i);
      ListChildVisited(GeminiSlots(), out, m, keyword, subs, i);
    }
  }

  // ---- one node ----

  /** A node of the run that is no reference: the canonical node and its expansion. */
  ghost predicate NodeAt(r: Run, n: Fields, stack: seq<string>, fuel: nat) {
    && Good(r) && n in Nodes(StrictSchema.StrictSlots(), r.root) && Reference(n).None?
    && RefsInFields(Wire(n)) <= RefsIn(r.w) && ExpandFields(r.w, Wire(n), stack).Ok?
    && Landed(r.out, Obj(ExpandFields(r.w, Wire(n), stack).value))
    && fuel >= |RefsIn(r.w) - Elems(stack)|
  }

  function Image(r: Run, n: Fields, stack: seq<string>): Fields
    requires RefsInFields(Wire(n)) <= RefsIn(r.w) && ExpandFields(r.w, Wire(n), stack).Ok?
  {
    ExpandFields(r.w, Wire(n), stack).value
  }

  lemma ListAt(r: Run, n: Fields, stack: seq<string>, fuel: nat, keyword: string, subs: seq<Json>, i: nat)
    requires NodeAt(r, n, stack, fuel) && Get(n, keyword) == Some(Arr(subs)) && i < |subs|
    requires SchemasAtKey(n, keyword) && keyword in StrictSchema.ARRAY_CHILDREN && keyword in G_ARRAYS
    requires Get(Wire(n), keyword) == Some(Arr(WireItems(subs))) && !IsDefs(keyword)
    ensures At(r, subs[i], stack, fuel)
    ensures var x := Get(Image(r, n, stack), keyword);
            x.Some? && x.value.Arr? && |x.value.items| == |subs|
            && Expand(r.w, WireNode(subs[i]), stack) == Ok(x.value.items[i])
  {
    var x := Image(r, n, stack);
    ExpandFieldsGet(r.w, Wire(n), stack, keyword);
    var items := WireItems(subs);
    ExpandItemsAt(r.w, items, stack, i);
    LandedList(r.out, x, keyword, ExpandItems(r.w, items, stack).value, i);
    if subs[i].Obj? {
      ListChildVisited(StrictSchema.StrictSlots(), r.root, n, keyword, subs, i);
    }
    assert items[i] == WireNode(subs[i]);
  }

  lemma SingleAt(r: Run, n: Fields, stack: seq<string>, fuel: nat, keyword: string, sub: Json)
    requires NodeAt(r, n, stack, fuel) && Get(n, keyword) == Some(sub) && IsSchema(sub)
    requires keyword in StrictSchema.SINGLE_CHILDREN && keyword !in StrictSchema.MAP_CHILDREN
    requires keyword in G_SINGLES && keyword !in G_MAPS
    requires Get(Wire(n), keyword) == Some(WireNode(sub)) && !IsDefs(keyword)
    ensures At(r, sub, stack, fuel)
    ensures Get(Image(r, n, stack), keyword) == Some(Expand(r.w, WireNode(sub), stack).value)
  {
    ExpandFieldsGet(r.w, Wire(n), stack, keyword);
    LandedSingle(r.out, Image(r, n, stack), keyword);
    if sub.Obj? {
      SingleChildVisited(StrictSchema.StrictSlots(), r.root, n, keyword, sub.fields);
    }
  }

  lemma ItemsSlot()
    ensures "items" in StrictSchema.SINGLE_CHILDREN && "items" !in StrictSchema.MAP_CHILDREN
    ensures "items" in G_SINGLES && "items" !in G_MAPS && !IsDefs("items")
  {
    assert StrictSchema.SINGLE_CHILDREN[0] == "items" && G_SINGLES[0] == "items";
  }

  lemma ListSlot(keyword: string)
    requires keyword == "anyOf" || keyword == "oneOf" || keyword == "prefixItems"
    ensures keyword in StrictSchema.ARRAY_CHILDREN && keyword in G_ARRAYS && !IsDefs(keyword)
  {
    assert StrictSchema.ARRAY_CHILDREN[0] == "anyOf" && StrictSchema.ARRAY_CHILDREN[1] == "oneOf"
        && StrictSchema.ARRAY_CHILDREN[3] == "prefixItems";
    assert G_ARRAYS[0] == "anyOf" && G_ARRAYS[1] == "oneOf" && G_ARRAYS[3] == "prefixItems";
  }

  lemma WireList(n: Fields, keyword: string, subs: seq<Json>)
    requires keyword == "anyOf" || keyword == "oneOf" || keyword == "prefixItems"
    requires Get(n, keyword) == Some(Arr(subs))
    ensures Get(Wire(n), keyword) == Some(Arr(WireItems(subs)))
  {
    WireGet(n, keyword);
    ListSlot(keyword);
  }

  lemma WireAbsent(n: Fields, keyword: string)
    requires keyword == "anyOf" || keyword == "oneOf" || keyword == "prefixItems" || keyword == "items"
    requires !Has(n, keyword)
    ensures !Has(Wire(n), keyword)
  {
    WireGet(n, keyword);
  }

  lemma AbsentIn(r: Run, n: Fields, stack: seq<string>, fuel: nat, keyword: string)
    requires NodeAt(r, n, stack, fuel) && !Has(Wire(n), keyword)
    ensures !Has(Image(r, n, stack), keyword)
  {
    ExpandFieldsGet(r.w, Wire(n), stack, keyword);
  }

  lemma AbsentBefore(r: Run, n: Fields, stack: seq<string>, fuel: nat, keyword: string)
    requires NodeAt(r, n, stack, fuel) && !Has(Image(r, n, stack), keyword) && !IsDefs(keyword)
    ensures !Has(Wire(n), keyword)
  {
    ExpandFieldsGet(r.w, Wire(n), stack, keyword);
  }

  /** A list keyword of a node and of its image: absent from both, or the same length with
      every branch expanded on its own. */
  ghost predicate Branches(r: Run, n: Fields, stack: seq<string>, fuel: nat, keyword: string)
    requires NodeAt(r, n, stack, fuel)
  {
    match Get(n, keyword)
    case None => !Has(Wire(n), keyword) && !Has(Image(r, n, stack), keyword)
    case Some(Arr(subs)) =>
      && Get(Wire(n), keyword) == Some(Arr(WireItems(subs)))
      && var x := Get(Image(r, n, stack), keyword);
         x.Some? && x.value.Arr? && |x.value.items| == |subs|
         && forall i | 0 <= i < |subs| ::
              At(r, subs[i], stack, fuel) && Expand(r.w, WireNode(subs[i]), stack) == Ok(x.value.items[i])
    case _ => false
  }

  predicate WiredList(n: Fields, keyword: string) {
    match Get(n, keyword)
    case None => !Has(Wire(n), keyword)
    case Some(Arr(subs)) => Get(Wire(n), keyword) == Some(Arr(WireItems(subs)))
    case _ => true
  }

  lemma BranchesAt(r: Run, n: Fields, stack: seq<string>, fuel: nat, keyword: string)
    requires NodeAt(r, n, stack, fuel) && SchemasAtKey(n, keyword) && WiredList(n, keyword)
    requires keyword in StrictSchema.ARRAY_CHILDREN && keyword in G_ARRAYS && !IsDefs(keyword)
    ensures Branches(r, n, stack, fuel, keyword)
  {
    ExpandFieldsGet(r.w, Wire(n), stack, keyword);
    match Get(n, keyword)
    case None => AbsentIn(r, n, stack, fuel, keyword);
    case Some(Arr(subs)) =>
      if subs == [] {
        assert ExpandItems(r.w, WireItems(subs), stack).Ok?;
      }
      forall i | 0 <= i < |subs|
        ensures At(r, subs[i], stack, fuel)
        ensures Expand(r.w, WireNode(subs[i]), stack) == Ok(Get(Image(r, n, stack), keyword).value.items[i])
      {
        ListAt(r, n, stack, fuel, keyword, subs, i);
      }
    case _ =>
  }

  lemma BranchesOf(r: Run, n: Fields, stack: seq<string>, fuel: nat, keyword: string)
    requires NodeAt(r, n, stack, fuel) && SchemasAtKey(n, keyword)
    requires keyword == "anyOf" || keyword == "oneOf" || keyword == "prefixItems"
    ensures Branches(r, n, stack, fuel, keyword)
  {
    ListSlot(keyword);
    match Get(n, keyword) {
      case None => WireAbsent(n, keyword);
      case Some(Arr(subs)) => WireList(n, keyword, subs);
      case _ =>
    }
    BranchesAt(r, n, stack, fuel, keyword);
  }

  // ---- meaning ----

  lemma {:induction false} BranchesSame(env: Env, r: Run, n: Fields, stack: seq<string>, keyword: string,
                                        subs: seq<Json>,
                                        v: Json, fuel: nat, o: Resolver, more: nat)
    requires NodeAt(r, n, stack, fuel) && Get(n, keyword) == Some(Arr(subs)) && Branches(r, n, stack, fuel, keyword)
    ensures var xs := Get(Image(r, n, stack), keyword).value.items;
            forall i | 0 <= i < |subs| ::
              Accepts(env, r.refs, WireItems(subs)[i], v, fuel) <==> Accepts(env, o, xs[i], v, more)
    decreases RefsIn(r.w) - Elems(stack), subs, 0
  {
    var xs := Get(Image(r, n, stack), keyword).value.items;
    forall i | 0 <= i < |subs|
      ensures Accepts(env, r.refs, WireItems(subs)[i], v, fuel) <==> Accepts(env, o, xs[i], v, more)
    {
      Same(env, r, subs[i], stack, v, fuel, o, more);
    }
  }

  lemma {:induction false} AnySame(env: Env, r: Run, n: Fields, stack: seq<string>, v: Json, fuel: nat, o: Resolver,
                                   more: nat)
    requires NodeAt(r, n, stack, fuel) && SchemasAtKey(n, "anyOf")
    ensures AnyPart(env, r.refs, Wire(n), v, fuel) <==> AnyPart(env, o, Image(r, n, stack), v, more)
    decreases RefsIn(r.w) - Elems(stack), n, 0
  {
    hide Wire, Expand, ExpandFields;
    BranchesOf(r, n, stack, fuel, "anyOf");
    match Get(n, "anyOf")
    case Some(Arr(subs)) => BranchesSame(env, r, n, stack, "anyOf", subs, v, fuel, o, more);
    case _ =>
  }

  lemma OneHoldsPointwise(env: Env, a: Resolver, b: Resolver, xs: seq<Json>, ys: seq<Json>, v: Json, fuel: nat,
                          more: nat)
    requires |xs| == |ys|
    requires forall i | 0 <= i < |xs| :: Accepts(env, a, xs[i], v, fuel) <==> Accepts(env, b, ys[i], v, more)
    ensures OneHolds(env, a, xs, v, fuel) <==> OneHolds(env, b, ys, v, more)
  {
    assert Verdicts(env, a, xs, v, fuel) == Verdicts(env, b, ys, v, more);
  }

  lemma OnePartIs(env: Env, refs: Resolver, fs: Fields, subs: seq<Json>, v: Json, fuel: nat)
    requires Get(fs, "oneOf") == Some(Arr(subs))
    ensures OnePart(env, refs, fs, v, fuel) <==> OneHolds(env, refs, subs, v, fuel)
  {
  }

  lemma {:induction false} OneSame(env: Env, r: Run, n: Fields, stack: seq<string>, v: Json, fuel: nat, o: Resolver,
                                   more: nat)
    requires NodeAt(r, n, stack, fuel) && SchemasAtKey(n, "oneOf")
    ensures OnePart(env, r.refs, Wire(n), v, fuel) <==> OnePart(env, o, Image(r, n, stack), v, more)
    decreases RefsIn(r.w) - Elems(stack), n, 0
  {
    hide Wire, Expand, ExpandFields;
    BranchesOf(r, n, stack, fuel, "oneOf");
    match Get(n, "oneOf")
    case Some(Arr(subs)) =>
      var xs := Get(Image(r, n, stack), "oneOf").value.items;
      BranchesSame(env, r, n, stack, "oneOf", subs, v, fuel, o, more);
      OneHoldsPointwise(env, r.refs, o, WireItems(subs), xs, v, fuel, more);
      OnePartIs(env, r.refs, Wire(n), WireItems(subs), v, fuel);
      OnePartIs(env, o, Image(r, n, stack), xs, v, more);
    case _ =>
  }

  lemma {:induction false} PrefixSame(env: Env, r: Run, n: Fields, stack: seq<string>, items: seq<Json>, fuel: nat,
                                      o: Resolver, more: nat)
    requires NodeAt(r, n, stack, fuel) && SchemasAtKey(n, "prefixItems")
    ensures PrefixPart(env, r.refs, Wire(n), items, fuel) <==> PrefixPart(env, o, Image(r, n, stack), items, more)
    ensures |Elements(Get(Wire(n), "prefixItems"))| == |Elements(Get(Image(r, n, stack), "prefixItems"))|
    decreases RefsIn(r.w) - Elems(stack), n, 0
  {
    hide Wire, Expand, ExpandFields;
    BranchesOf(r, n, stack, fuel, "prefixItems");
    match Get(n, "prefixItems")
    case Some(Arr(subs)) =>
      var xs := Get(Image(r, n, stack), "prefixItems").value.items;
      forall i | 0 <= i < |subs| && i < |items|
        ensures Accepts(env, r.refs, WireItems(subs)[i], items[i], fuel) <==> Accepts(env, o, xs[i], items[i], more)
      {
        assert At(r, subs[i], stack, fuel);
        Same(env, r, subs[i], stack, items[i], fuel, o, more);
      }
    case _ =>
  }

  lemma {:induction false} ItemsSame(env: Env, r: Run, n: Fields, stack: seq<string>, items: seq<Json>, fuel: nat,
                                     o: Resolver, more: nat)
    requires NodeAt(r, n, stack, fuel) && SchemaAtKey(n, "items")
    requires |Elements(Get(Wire(n), "prefixItems"))| == |Elements(Get(Image(r, n, stack), "prefixItems"))|
    ensures ItemsPart(env, r.refs, Wire(n), items, fuel) <==> ItemsPart(env, o, Image(r, n, stack), items, more)
    decreases RefsIn(r.w) - Elems(stack), n, 0
  {
    hide Wire, Expand, ExpandFields;
    GeminiRelaxation.WireGetItems(n);
    match Get(n, "items")
    case None => AbsentIn(r, n, stack, fuel, "items");
    case Some(sub) =>
      ItemsSlot();
      SingleAt(r, n, stack, fuel, "items", sub);
      var x := Get(Image(r, n, stack), "items").value;
      forall i | 0 <= i < |items|
        ensures Accepts(env, r.refs, WireNode(sub), items[i], fuel) <==> Accepts(env, o, x, items[i], more)
      {
        Same(env, r, sub, stack, items[i], fuel, o, more);
      }
  }

  lemma MembersReference(ps: Fields)
    requires MembersAreSchemas(ps)
    ensures Reference(WireMembers(ps)).None?
  {
    if Has(ps, "$ref") {
      assert IsSchema(Get(ps, "$ref").value);
    }
  }

  /** The property map of the image: each property expanded on its own, none lost. A property
      named like a definitions key would be lost, and then `required` would not list exactly
      the names that remain. */
  lemma PropertiesAt(r: Run, n: Fields, stack: seq<string>, fuel: nat, ps: Fields) returns (xs: Fields)
    requires NodeAt(r, n, stack, fuel) && Get(n, "properties") == Some(Obj(ps)) && MembersAreSchemas(ps)
    requires Get(n, "required") == Some(StrictSchema.Strings(Names(ps)))
    ensures Get(Wire(n), "properties") == Some(Obj(WireMembers(ps)))
    ensures RefsInFields(WireMembers(ps)) <= RefsIn(r.w) && ExpandFields(r.w, WireMembers(ps), stack) == Ok(xs)
    ensures Get(Image(r, n, stack), "properties") == Some(Obj(xs))
    ensures Names(xs) == Names(ps) && forall k | k in Names(ps) :: !IsDefs(k)
  {
    hide Wire, WireMembers, ExpandFields;
    WireGetProperties(n);
    GeminiRelaxation.PropertiesValue(n);
    MembersReference(ps);
    ExpandFieldsGet(r.w, Wire(n), stack, "properties");
    xs := ExpandFields(r.w, WireMembers(ps), stack).value;
    var image := Image(r, n, stack);
    assert OutReady(image);
    RequiredKept(r, n, stack, fuel, ps);
    StringsInjective(Names(xs), Names(ps));
    forall k | k in Names(ps) ensures !IsDefs(k) {
      ExpandFieldsGet(r.w, WireMembers(ps), stack, k);
      assert Has(xs, k);
    }
  }

  lemma StringsInjective(a: seq<string>, b: seq<string>)
    requires StrictSchema.Strings(a) == StrictSchema.Strings(b)
    ensures a == b
  {
    forall i | 0 <= i < |a| ensures a[i] == b[i] {
      assert StrictSchema.Strings(a).items[i] == Str(a[i]);
    }
  }

  lemma RequiredKept(r: Run, n: Fields, stack: seq<string>, fuel: nat, ps: Fields)
    requires NodeAt(r, n, stack, fuel) && Get(n, "required") == Some(StrictSchema.Strings(Names(ps)))
    ensures Get(Image(r, n, stack), "required") == Some(StrictSchema.Strings(Names(ps)))
  {
    GeminiRelaxation.WireKeepsRequired(n);
    DataKept(r.w, Wire(n), stack, "required");
  }

  lemma PropertySlot()
    ensures "properties" in StrictSchema.MAP_CHILDREN && "properties" in G_MAPS && !IsDefs("properties")
  {
    assert StrictSchema.MAP_CHILDREN[2] == "properties" && G_MAPS[2] == "properties";
  }

  lemma PropertyAt(r: Run, n: Fields, stack: seq<string>, fuel: nat, ps: Fields, xs: Fields, k: string)
    requires NodeAt(r, n, stack, fuel) && Get(n, "properties") == Some(Obj(ps)) && MembersAreSchemas(ps) && Has(ps, k)
    requires RefsInFields(WireMembers(ps)) <= RefsIn(r.w) && ExpandFields(r.w, WireMembers(ps), stack) == Ok(xs)
    requires Get(Image(r, n, stack), "properties") == Some(Obj(xs)) && !IsDefs(k)
    ensures At(r, Get(ps, k).value, stack, fuel)
    ensures Get(xs, k) == Some(Expand(r.w, WireNode(Get(ps, k).value), stack).value)
  {
    PropertySlot();
    ExpandFieldsGet(r.w, WireMembers(ps), stack, k);
    LandedMap(r.out, Image(r, n, stack), "properties", xs, k);
    GeminiRelaxation.PropertyVisited(r.root, n, ps, k);
  }

  lemma {:induction false} PropertiesSame(env: Env, r: Run, n: Fields, stack: seq<string>, ps: Fields, xs: Fields,
                                          members: Fields, fuel: nat, o: Resolver, more: nat)
    requires NodeAt(r, n, stack, fuel) && Get(n, "properties") == Some(Obj(ps)) && MembersAreSchemas(ps)
    requires RefsInFields(WireMembers(ps)) <= RefsIn(r.w) && ExpandFields(r.w, WireMembers(ps), stack) == Ok(xs)
    requires Get(Image(r, n, stack), "properties") == Some(Obj(xs))
    requires Names(xs) == Names(ps) && forall k | k in Names(ps) :: !IsDefs(k)
    ensures PropertiesHold(env, r.refs, WireMembers(ps), members, fuel) <==> PropertiesHold(env, o, xs, members, more)
    decreases RefsIn(r.w) - Elems(stack), ps, 0
  {
    forall k | Has(ps, k) && Has(members, k)
      ensures Has(xs, k)
      ensures Accepts(env, r.refs, Get(WireMembers(ps), k).value, Get(members, k).value, fuel)
              <==> Accepts(env, o, Get(xs, k).value, Get(members, k).value, more)
    {
      assert k in Names(ps);
      PropertyAt(r, n, stack, fuel, ps, xs, k);
      Same(env, r, Get(ps, k).value, stack, Get(members, k).value, fuel, o, more);
    }
    assert forall k :: Has(xs, k) <==> k in Names(xs);
    assert forall k :: Has(ps, k) <==> k in Names(ps);
  }

  lemma FalseAdditional(env: Env, a: Resolver, b: Resolver, ps: Fields, xs: Fields, members: Fields, fuel: nat,
                        more: nat)
    requires forall k :: Has(ps, k) <==> Has(xs, k)
    ensures AdditionalHold(env, a, Bool(false), ps, members, fuel) <==>
              AdditionalHold(env, b, Bool(false), xs, members, more)
  {
    if k :| !Has(ps, k) && Has(members, k) {
      assert !Accepts(env, a, Bool(false), Get(members, k).value, fuel);
      assert !Accepts(env, b, Bool(false), Get(members, k).value, more);
    }
  }

  lemma AdditionalKept(r: Run, n: Fields, stack: seq<string>, fuel: nat)
    requires NodeAt(r, n, stack, fuel) && Get(n, "additionalProperties") == Some(Bool(false))
    ensures Get(Wire(n), "additionalProperties") == Some(Bool(false))
    ensures Get(Image(r, n, stack), "additionalProperties") == Some(Bool(false))
  {
    WireGetAdditional(n);
    DataKept(r.w, Wire(n), stack, "additionalProperties");
  }

  lemma NotObjectNode(r: Run, n: Fields, stack: seq<string>, fuel: nat)
    requires NodeAt(r, n, stack, fuel) && !Has(n, "properties") && !Has(n, "additionalProperties")
    ensures !Has(Wire(n), "properties") && !Has(Wire(n), "additionalProperties")
    ensures !Has(Image(r, n, stack), "properties") && !Has(Image(r, n, stack), "additionalProperties")
  {
    WireGetProperties(n);
    WireGetAdditional(n);
    AbsentIn(r, n, stack, fuel, "properties");
    AbsentIn(r, n, stack, fuel, "additionalProperties");
  }

  lemma SameNames(ps: Fields, xs: Fields)
    requires Names(xs) == Names(ps)
    ensures forall k :: Has(WireMembers(ps), k) <==> Has(xs, k)
  {
    forall k ensures Has(WireMembers(ps), k) <==> Has(xs, k) {
      assert Has(xs, k) <==> k in Names(xs);
      assert Has(WireMembers(ps), k) <==> k in Names(WireMembers(ps));
    }
  }

  lemma PropertiesPartIs(env: Env, refs: Resolver, fs: Fields, ps: Fields, members: Fields, fuel: nat)
    requires Get(fs, "properties") == Some(Obj(ps)) && Get(fs, "additionalProperties") == Some(Bool(false))
    ensures PropertiesPart(env, refs, fs, members, fuel) <==> PropertiesHold(env, refs, ps, members, fuel)
    ensures AdditionalPart(env, refs, fs, members, fuel) <==> AdditionalHold(env, refs, Bool(false), ps, members, fuel)
  {
  }

  lemma {:induction false} ClosedSame(env: Env, r: Run, n: Fields, stack: seq<string>, ps: Fields,
                                      members: Fields, fuel: nat, o: Resolver, more: nat)
    requires NodeAt(r, n, stack, fuel) && Get(n, "properties") == Some(Obj(ps)) && MembersAreSchemas(ps)
    requires Get(n, "required") == Some(StrictSchema.Strings(Names(ps)))
    requires Get(n, "additionalProperties") == Some(Bool(false))
    ensures PropertiesPart(env, r.refs, Wire(n), members, fuel) <==>
              PropertiesPart(env, o, Image(r, n, stack), members, more)
    ensures AdditionalPart(env, r.refs, Wire(n), members, fuel) <==>
              AdditionalPart(env, o, Image(r, n, stack), members, more)
    decreases RefsIn(r.w) - Elems(stack), ps, 1
  {
    var xs := PropertiesAt(r, n, stack, fuel, ps);
    AdditionalKept(r, n, stack, fuel);
    PropertiesSame(env, r, n, stack, ps, xs, members, fuel, o, more);
    SameNames(ps, xs);
    FalseAdditional(env, r.refs, o, WireMembers(ps), xs, members, fuel, more);
    PropertiesPartIs(env, r.refs, Wire(n), WireMembers(ps), members, fuel);
    PropertiesPartIs(env, o, Image(r, n, stack), xs, members, more);
  }

  lemma {:induction false} ObjectSame(env: Env, r: Run, n: Fields, stack: seq<string>, members: Fields, fuel: nat,
                                      o: Resolver, more: nat)
    requires NodeAt(r, n, stack, fuel) && NodeReady(r, n)
    ensures PropertiesPart(env, r.refs, Wire(n), members, fuel) <==>
              PropertiesPart(env, o, Image(r, n, stack), members, more)
    ensures AdditionalPart(env, r.refs, Wire(n), members, fuel) <==>
              AdditionalPart(env, o, Image(r, n, stack), members, more)
    decreases RefsIn(r.w) - Elems(stack), n, 0
  {
    if !Has(n, "properties") && !Has(n, "additionalProperties") {
      NotObjectNode(r, n, stack, fuel);
    } else {
      ClosedSame(env, r, n, stack, Get(n, "properties").value.fields, members, fuel, o, more);
    }
  }

  lemma RefPartNull(env: Env, refs: Resolver, fs: Fields, v: Json, fuel: nat)
    requires Has(fs, "$ref") ==> Get(fs, "$ref").value == Null
    ensures RefPart(env, refs, fs, v, fuel)
  {
  }

  lemma NoRefParts(env: Env, r: Run, n: Fields, stack: seq<string>, v: Json, fuel: nat, o: Resolver, more: nat)
    requires NodeAt(r, n, stack, fuel) && NodeReady(r, n)
    ensures RefPart(env, r.refs, Wire(n), v, fuel) && RefPart(env, o, Image(r, n, stack), v, more)
  {
    GeminiRelaxation.WireGetRef(n);
    DataKept(r.w, Wire(n), stack, "$ref");
    RefPartNull(env, r.refs, Wire(n), v, fuel);
    RefPartNull(env, o, Image(r, n, stack), v, more);
  }

  lemma GonePart(env: Env, refs: Resolver, fs: Fields, v: Json, fuel: nat)
    requires !Has(fs, "allOf") && !Has(fs, "not") && !Has(fs, "if")
    ensures AllPart(env, refs, fs, v, fuel) && NotPart(env, refs, fs, v, fuel) && IfPart(env, refs, fs, v, fuel)
  {
  }

  lemma GoneParts(env: Env, r: Run, n: Fields, stack: seq<string>, v: Json, fuel: nat, o: Resolver, more: nat)
    requires NodeAt(r, n, stack, fuel)
    ensures AllPart(env, r.refs, Wire(n), v, fuel) && NotPart(env, r.refs, Wire(n), v, fuel)
              && IfPart(env, r.refs, Wire(n), v, fuel)
    ensures AllPart(env, o, Image(r, n, stack), v, more) && NotPart(env, o, Image(r, n, stack), v, more)
         && IfPart(env, o, Image(r, n, stack), v, more)
  {
    assert OutReady(Image(r, n, stack));
    AbsentBefore(r, n, stack, fuel, "allOf");
    AbsentBefore(r, n, stack, fuel, "not");
    AbsentBefore(r, n, stack, fuel, "if");
    GonePart(env, r.refs, Wire(n), v, fuel);
    GonePart(env, o, Image(r, n, stack), v, more);
  }

  lemma {:induction false} ApplicatorsSame(env: Env, r: Run, n: Fields, stack: seq<string>, v: Json, fuel: nat,
                                           o: Resolver, more: nat)
    requires NodeAt(r, n, stack, fuel) && NodeReady(r, n)
    ensures Applicators(env, r.refs, Wire(n), v, fuel) <==> Applicators(env, o, Image(r, n, stack), v, more)
    decreases RefsIn(r.w) - Elems(stack), n, 1
  {
    NoRefParts(env, r, n, stack, v, fuel, o, more);
    GoneParts(env, r, n, stack, v, fuel, o, more);
    AnySame(env, r, n, stack, v, fuel, o, more);
    OneSame(env, r, n, stack, v, fuel, o, more);
    if v.Obj? {
      ObjectSame(env, r, n, stack, v.fields, fuel, o, more);
    }
    if v.Arr? {
      PrefixSame(env, r, n, stack, v.items, fuel, o, more);
      ItemsSame(env, r, n, stack, v.items, fuel, o, more);
    }
  }

  // ---- references ----

  lemma OnlyRef(env: Env, refs: Resolver, fs: Fields, name: string, target: Json, v: Json, fuel: nat, less: nat)
    requires (forall k | k in Names(fs) :: k == "$ref") && Get(fs, "$ref") == Some(Str(name))
    requires refs(name) == Some(target) && fuel == less + 1
    ensures Accepts(env, refs, Obj(fs), v, fuel) <==> Accepts(env, refs, target, v, less)
  {
    forall k ensures k != "$ref" ==> Get(fs, k) == None {
      assert Has(fs, k) <==> k in Names(fs);
    }
    NoKeywords(env, refs, fs, v, fuel);
  }

  lemma NoAssertions(env: Env, fs: Fields, v: Json)
    requires forall k :: k != "$ref" ==> Get(fs, k) == None
    ensures Assertions(env, fs, v)
  {
  }

  lemma NoObjectParts(env: Env, refs: Resolver, fs: Fields, members: Fields, fuel: nat)
    requires forall k :: k != "$ref" ==> Get(fs, k) == None
    ensures PropertiesPart(env, refs, fs, members, fuel) && AdditionalPart(env, refs, fs, members, fuel)
  {
  }

  lemma NoArrayParts(env: Env, refs: Resolver, fs: Fields, items: seq<Json>, fuel: nat)
    requires forall k :: k != "$ref" ==> Get(fs, k) == None
    ensures PrefixPart(env, refs, fs, items, fuel) && ItemsPart(env, refs, fs, items, fuel)
  {
  }

  lemma NoChoiceParts(env: Env, refs: Resolver, fs: Fields, v: Json, fuel: nat)
    requires forall k :: k != "$ref" ==> Get(fs, k) == None
    ensures AnyPart(env, refs, fs, v, fuel) && OnePart(env, refs, fs, v, fuel)
  {
  }

  lemma NoKeywords(env: Env, refs: Resolver, fs: Fields, v: Json, fuel: nat)
    requires forall k :: k != "$ref" ==> Get(fs, k) == None
    ensures Accepts(env, refs, Obj(fs), v, fuel) <==> RefPart(env, refs, fs, v, fuel)
  {
    NoAssertions(env, fs, v);
    NoChoiceParts(env, refs, fs, v, fuel);
    GonePart(env, refs, fs, v, fuel);
    if v.Obj? {
      NoObjectParts(env, refs, fs, v.fields, fuel);
    }
    if v.Arr? {
      NoArrayParts(env, refs, fs, v.items, fuel);
    }
  }

  lemma WireHas(n: Fields, k: string)
    ensures Has(Wire(n), k) ==> Has(n, k) || Has(n, "const")
  {
  }

  lemma WireOnlyRef(n: Fields)
    requires forall k | k in Names(n) :: k == "$ref"
    ensures forall k | k in Names(Wire(n)) :: k == "$ref"
  {
    forall k | k in Names(Wire(n)) ensures k == "$ref" {
      WireHas(n, k);
      assert Has(n, k) <==> k in Names(n);
      assert Has(n, "const") <==> "const" in Names(n);
    }
  }

  lemma FewerLeft(u: set<string>, stack: seq<string>, name: string)
    requires name in u && name !in stack
    ensures u - Elems(stack) > u - Elems(stack + [name])
    ensures |u - Elems(stack)| > |u - Elems(stack + [name])|
  {
    var more, fewer := u - Elems(stack), u - Elems(stack + [name]);
    assert name in more && name !in fewer;
    assert fewer <= more - {name};
    Cardinality(fewer, more - {name});
  }

  lemma {:induction false} Cardinality(a: set<string>, b: set<string>)
    requires a <= b
    ensures |a| <= |b|
  {
    if a != {} {
      var x :| x in a;
      Cardinality(a - {x}, b - {x});
    }
  }

  lemma FollowOk(w: Json, x: Fields, stack: seq<string>, name: string)
    requires Reference(x) == Some(name) && RefsIn(Obj(x)) <= RefsIn(w) && Expand(w, Obj(x), stack).Ok?
    ensures name in RefsIn(w) && name !in stack && Named(w, name).Ok?
    ensures RefsIn(Named(w, name).value) <= RefsIn(w)
    ensures Expand(w, Obj(x), stack) == Expand(w, Named(w, name).value, stack + [name])
  {
    NamedRefs(w, name);
  }

  lemma ReferenceFacts(r: Run, n: Fields, name: string)
    requires Good(r) && n in Nodes(StrictSchema.StrictSlots(), r.root) && Reference(n) == Some(name)
    ensures r.c(name).Some? && IsSchema(r.c(name).value) && Visited(r.root, r.c(name).value)
    ensures Reference(Wire(n)) == Some(name)
    ensures Named(r.w, name) == Ok(WireNode(r.c(name).value))
  {
    assert NodeReady(r, n);
    GeminiRelaxation.WireGetRef(n);
  }

  /** Following a reference of the run leads to a subschema of the run. */
  lemma TargetAt(r: Run, n: Fields, stack: seq<string>, fuel: nat, name: string) returns (target: Json)
    requires At(r, Obj(n), stack, fuel) && Reference(n) == Some(name)
    ensures name in RefsIn(r.w) && name !in stack && fuel > 0 && r.c(name) == Some(target)
    ensures At(r, target, stack + [name], fuel - 1)
    ensures Expand(r.w, Obj(Wire(n)), stack) == Expand(r.w, WireNode(target), stack + [name])
  {
    ReferenceFacts(r, n, name);
    target := r.c(name).value;
    FollowOk(r.w, Wire(n), stack, name);
    FewerLeft(RefsIn(r.w), stack, name);
  }

  lemma {:induction false} RefSame(env: Env, r: Run, n: Fields, stack: seq<string>, name: string, v: Json,
                                   fuel: nat, o: Resolver, more: nat)
    requires At(r, Obj(n), stack, fuel) && Reference(n) == Some(name)
    ensures var x := Expand(r.w, Obj(Wire(n)), stack).value;
            IsSchema(x) && (Accepts(env, r.refs, Obj(Wire(n)), v, fuel) <==> Accepts(env, o, x, v, more))
    decreases RefsIn(r.w) - Elems(stack), n, 0
  {
    var target := TargetAt(r, n, stack, fuel, name);
    var less := fuel - 1;
    FewerLeft(RefsIn(r.w), stack, name);
    Same(env, r, target, stack + [name], v, less, o, more);
    assert NodeReady(r, n);
    GeminiRelaxation.WireGetRef(n);
    WireOnlyRef(n);
    OnlyRef(env, r.refs, Wire(n), name, WireNode(target), v, fuel, less);
  }

  lemma AcceptsNode(env: Env, refs: Resolver, fs: Fields, v: Json, fuel: nat)
    ensures Accepts(env, refs, Obj(fs), v, fuel) <==> Assertions(env, fs, v) && Applicators(env, refs, fs, v, fuel)
  {
    hide Assertions, Applicators;
  }

  lemma ReadyIsShaped(r: Run, n: Fields)
    requires NodeReady(r, n)
    ensures Shaped(n)
  {
    hide Shaped;
  }

  lemma WholeIsNode(r: Run, n: Fields, stack: seq<string>, fuel: nat)
    requires At(r, Obj(n), stack, fuel) && Reference(n).None?
    ensures NodeReady(r, n) && Shaped(n) && NodeAt(r, n, stack, fuel)
    ensures Expand(r.w, Obj(Wire(n)), stack) == Ok(Obj(Image(r, n, stack)))
  {
    hide NodeReady, Shaped, Wire;
    assert NodeReady(r, n);
    ReadyIsShaped(r, n);
    GeminiRelaxation.WireGetRef(n);
  }

  lemma {:induction false} NodeSame(env: Env, r: Run, n: Fields, stack: seq<string>, v: Json, fuel: nat, o: Resolver,
                                    more: nat)
    requires At(r, Obj(n), stack, fuel) && Reference(n).None?
    ensures var x := Expand(r.w, Obj(Wire(n)), stack).value;
            IsSchema(x) && (Accepts(env, r.refs, Obj(Wire(n)), v, fuel) <==> Accepts(env, o, x, v, more))
    decreases RefsIn(r.w) - Elems(stack), n, 2
  {
    hide Assertions, Applicators, NodeReady, Shaped, Accepts, Expand, ExpandFields, Wire;
    WholeIsNode(r, n, stack, fuel);
    NodeAssertionsKept(env, r.w, n, stack, v);
    ApplicatorsSame(env, r, n, stack, v, fuel, o, more);
    AcceptsNode(env, r.refs, Wire(n), v, fuel);
    AcceptsNode(env, o, Image(r, n, stack), v, more);
  }

  /** The value a subschema of the wire schema accepts is the value its expansion accepts,
      with enough fuel for the references that are left and none needed afterwards. */
  lemma {:induction false} Same(env: Env, r: Run, j: Json, stack: seq<string>, v: Json, fuel: nat, o: Resolver,
                                more: nat)
    requires At(r, j, stack, fuel)
    ensures var x := Expand(r.w, WireNode(j), stack).value;
            IsSchema(x) && (Accepts(env, r.refs, WireNode(j), v, fuel) <==> Accepts(env, o, x, v, more))
    decreases RefsIn(r.w) - Elems(stack), j, 3
  {
    if j.Obj? {
      match Reference(j.fields)
      case Some(name) => RefSame(env, r, j.fields, stack, name, v, fuel, o, more);
      case None => NodeSame(env, r, j.fields, stack, v, fuel, o, more);
    }
  }

  // ---- the pipeline ----

  lemma ClosedByStrict(root: Fields, n: Fields)
    requires StrictSchema.ObjectViolations(n) == []
    ensures ClosedNode(n)
  {
  }

  lemma {:induction false} SchemaAtIsSchema(j: Json, steps: seq<string>)
    requires SchemaAt(j, steps)
    ensures Descend(j, steps).Some? && IsSchema(Descend(j, steps).value)
    decreases |steps|
  {
    if steps != [] {
      var child := Get(j.fields, steps[0]).value;
      if steps[0] in G_MAPS {
        var target := Get(child.fields, steps[1]).value;
        SchemaAtIsSchema(target, steps[2..]);
        TwoSteps(j, steps, target);
      } else {
        SchemaAtIsSchema(child, steps[1..]);
      }
    }
  }

  lemma ReferenceByStrict(root: Fields, n: Fields, name: string)
    requires RefNamesSchema(root, n) && Reference(n) == Some(name)
    requires StrictSchema.ReferenceViolations(root, n) == []
    ensures forall k | k in Names(n) :: k == "$ref"
    ensures IsLocal(name) && Resolve(Obj(root), name).Some? && SchemaAt(Obj(root), Steps(name))
  {
    assert StrictSchema.HasReference(n);
    assert !StrictSchema.HasSiblings(n);
  }

  lemma NullByStrict(root: Fields, n: Fields)
    requires Reference(n).None? && StrictSchema.ReferenceViolations(root, n) == []
    ensures Has(n, "$ref") ==> Get(n, "$ref").value == Null
  {
  }

  lemma WiredTarget(root: Fields, name: string)
    requires IsLocal(name) && SchemaAt(Obj(root), Steps(name))
    ensures Resolve(Obj(root), name).Some?
    ensures var target := Resolve(Obj(root), name).value;
            IsSchema(target) && Visited(root, target) && Resolve(Obj(Wire(root)), name) == Some(WireNode(target))
  {
    RootIsVisited(StrictSchema.StrictSlots(), root);
    SchemaAtIsSchema(Obj(root), Steps(name));
    DescendWire(root, Obj(root), Steps(name));
  }

  function RunOf(root: Fields, out: Fields): Run {
    Run(root, Locals(Obj(root)), Obj(Wire(root)), Locals(Obj(Wire(root))), out)
  }

  lemma RefReadyByStrict(root: Fields, out: Fields, n: Fields)
    requires RefNamesSchema(root, n) && StrictSchema.ReferenceViolations(root, n) == []
    ensures RefReady(RunOf(root, out), n)
  {
    match Reference(n)
    case None => NullByStrict(root, n);
    case Some(name) =>
      ReferenceByStrict(root, n, name);
      WiredTarget(root, name);
  }

  lemma NoViolations(root: Fields, n: Fields)
    requires StrictSchema.Strict(root) && n in Nodes(StrictSchema.StrictSlots(), root)
    ensures StrictSchema.ReferenceViolations(root, n) == [] && StrictSchema.ObjectViolations(n) == []
  {
  }

  lemma NodeReadyByStrict(root: Fields, out: Fields, n: Fields)
    requires StrictSchema.Strict(root) && WellFormed(root) && n in Nodes(StrictSchema.StrictSlots(), root)
    ensures NodeReady(RunOf(root, out), n)
  {
    NoViolations(root, n);
    assert Shaped(n) && RefNamesSchema(root, n);
    ClosedByStrict(root, n);
    RefReadyByStrict(root, out, n);
  }

  lemma Unsupported(m: Fields, key: string)
    requires NodeSupported(m) && !IsSupported(key)
    ensures !Has(m, key)
  {
    assert Has(m, key) <==> key in Names(m);
  }

  lemma NoUnsupported(m: Fields)
    requires NodeSupported(m)
    ensures !Has(m, "allOf") && !Has(m, "not") && !Has(m, "if")
  {
    Unsupported(m, "allOf");
    Unsupported(m, "not");
    Unsupported(m, "if");
  }

  lemma OutReadyByChecks(out: Fields, m: Fields)
    requires StrictSchema.Strict(out) && Supported(out) && Landed(out, Obj(m))
    ensures OutReady(m)
  {
    NoViolations(out, m);
    ClosedByStrict(out, m);
    NoUnsupported(m);
  }

  lemma InlineOk(w: Fields)
    requires InlineRefs(w).Ok?
    ensures Expand(Obj(w), Obj(w), []) == Ok(Obj(InlineRefs(w).value))
  {
  }

  lemma PassesOk(root: Fields)
    requires BatchSchema(root).Ok?
    ensures Refused(BatchSchema(root).value) == None && InlineRefs(Wire(root)) == Ok(BatchSchema(root).value)
  {
  }

  lemma RunIsGood(root: Fields, out: Fields)
    requires StrictSchema.Strict(root) && WellFormed(root) && Refused(out) == None
    ensures Good(RunOf(root, out))
  {
    var r := RunOf(root, out);
    forall n | n in Nodes(StrictSchema.StrictSlots(), r.root) ensures NodeReady(r, n) {
      NodeReadyByStrict(root, out, n);
    }
    forall m | Landed(r.out, Obj(m)) ensures OutReady(m) {
      OutReadyByChecks(out, m);
    }
  }

  lemma RootAt(r: Run, fuel: nat)
    requires Good(r) && r.w == WireNode(Obj(r.root)) && Expand(r.w, r.w, []) == Ok(Obj(r.out))
    requires fuel >= |RefsIn(r.w)|
    ensures At(r, Obj(r.root), [], fuel)
  {
    RootIsVisited(StrictSchema.StrictSlots(), r.root);
    RootIsVisited(StrictSchema.StrictSlots(), r.out);
    RootIsVisited(GeminiSlots(), r.out);
    assert RefsIn(r.w) - Elems([]) == RefsIn(r.w);
  }

  lemma RunStarts(root: Fields, fuel: nat) returns (r: Run)
    requires StrictSchema.Strict(root) && WellFormed(root) && BatchSchema(root).Ok?
    requires fuel >= |RefsIn(Obj(Wire(root)))|
    ensures r == RunOf(root, BatchSchema(root).value) && At(r, Obj(root), [], fuel)
    ensures Expand(r.w, Obj(Wire(root)), []) == Ok(Obj(BatchSchema(root).value))
  {
    r := RunOf(root, BatchSchema(root).value);
    PassesOk(root);
    InlineOk(Wire(root));
    RunIsGood(root, r.out);
    RootAt(r, fuel);
  }

  /** The schema that is sent accepts exactly the values the specialised schema accepted
      through its references. */
  lemma SentAcceptsSame(env: Env, root: Fields, v: Json, fuel: nat, o: Resolver, more: nat)
    requires StrictSchema.Strict(root) && WellFormed(root) && BatchSchema(root).Ok?
    requires fuel >= |RefsIn(Obj(Wire(root)))|
    ensures Accepts(env, Locals(Obj(Wire(root))), Obj(Wire(root)), v, fuel)
            <==> Accepts(env, o, Obj(BatchSchema(root).value), v, more)
  {
    var r := RunStarts(root, fuel);
    Same(env, r, Obj(root), [], v, fuel, o, more);
  }
}
