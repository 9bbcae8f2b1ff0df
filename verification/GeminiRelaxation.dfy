/** The Gemini wire view only relaxes: whatever the canonical schema accepts, the schema sent
    to the provider accepts (common/provider_schema_compatibility.py). */
module GeminiRelaxation {
  import opened Json
  import opened Pointer
  import opened SchemaWalk
  import opened SchemaSemantics
  import opened GeminiWire
  import StrictSchema

  // ---- the edited keywords ----

  predicate IsPopped(key: string) {
    key == "const" || key in LocalOnly()
  }

  lemma WirePops(fs: Fields, key: string)
    requires IsPopped(key)
    ensures !Has(Wire(fs), key)
  {
  }

  lemma WireKeepsType(fs: Fields)
    ensures Get(Wire(fs), "type") == Get(fs, "type")
  {
    WireKeeps(fs, "type");
  }

  lemma WireKeepsRequired(fs: Fields)
    ensures Get(Wire(fs), "required") == Get(fs, "required")
  {
    WireKeeps(fs, "required");
  }

  lemma WireKeepsMinimum(fs: Fields)
    ensures Get(Wire(fs), "minimum") == Get(fs, "minimum")
  {
    WireKeeps(fs, "minimum");
  }

  lemma WireKeepsMaximum(fs: Fields)
    ensures Get(Wire(fs), "maximum") == Get(fs, "maximum")
  {
    WireKeeps(fs, "maximum");
  }

  lemma FormatAfterEdit(fs: Fields)
    ensures Get(EditWire(fs), "format") == None || Get(EditWire(fs), "format") == Get(fs, "format")
  {
  }

  lemma FormatSlot(fs: Fields)
    ensures Get(WireFields(fs), "format") == Get(fs, "format")
  {
    DataSlot(fs, "format");
  }

  lemma WireFormat(fs: Fields)
    ensures Get(Wire(fs), "format") == None || Get(Wire(fs), "format") == Get(fs, "format")
  {
    FormatSlot(fs);
    FormatAfterEdit(WireFields(fs));
  }

  lemma EditKeeps(fs: Fields, key: string)
    requires key !in LocalOnly() && key != "format"
    ensures Get(EditWire(fs), key) == Get(ConstToEnum(fs), key)
  {
  }

  lemma EnumIsNotPopped()
    ensures "enum" !in LocalOnly()
  {
  }

  lemma ConstToEnumGet(fs: Fields)
    ensures Get(ConstToEnum(fs), "enum") ==
            if Has(fs, "const") && NoEnum(fs) then Some(Arr([Get(fs, "const").value])) else Get(fs, "enum")
  {
  }

  lemma DataSlot(fs: Fields, key: string)
    requires key !in G_MAPS && key !in G_SINGLES && key !in G_ARRAYS
    ensures Get(WireFields(fs), key) == Get(fs, key)
  {
    if Has(fs, key) {
      DataValue(key, Get(fs, key).value);
    }
  }

  lemma ConstSlot(fs: Fields)
    ensures Get(WireFields(fs), "const") == Get(fs, "const")
  {
    DataSlot(fs, "const");
  }

  lemma EnumSlot(fs: Fields)
    ensures Get(WireFields(fs), "enum") == Get(fs, "enum")
  {
    DataSlot(fs, "enum");
  }

  /** A lone constant becomes the singleton enumeration; otherwise the enumeration stays. */
  lemma WireEnum(fs: Fields)
    ensures Get(Wire(fs), "enum") ==
            if Has(fs, "const") && NoEnum(fs) then Some(Arr([Get(fs, "const").value])) else Get(fs, "enum")
  {
    ConstSlot(fs);
    EnumSlot(fs);
    ConstToEnumGet(WireFields(fs));
    EnumIsNotPopped();
    EditKeeps(WireFields(fs), "enum");
  }

  lemma Singleton(v: Json, c: Json)
    ensures EnumHolds(Some(Arr([c])), v) <==> JsonEq(v, c)
  {
    if JsonEq(v, c) {
      assert JsonEq(v, [c][0]);
    }
  }

  /** Object closure, `required` and types are unchanged, and the constants and enumerations
      together admit what they admitted, but for a constant beside a wider enumeration. */
  lemma WireKeepsShape(fs: Fields, v: Json)
    ensures Get(Wire(fs), "type") == Get(fs, "type")
    ensures Get(Wire(fs), "required") == Get(fs, "required")
    ensures Get(fs, "additionalProperties") == Some(Bool(false)) ==>
              Get(Wire(fs), "additionalProperties") == Some(Bool(false))
    ensures !Has(Wire(fs), "const")
    ensures NoEnum(fs) ==>
              (EnumHolds(Get(Wire(fs), "enum"), v) <==>
                  EnumHolds(Get(fs, "enum"), v) && ConstHolds(Get(fs, "const"), v))
    ensures !NoEnum(fs) ==> Get(Wire(fs), "enum") == Get(fs, "enum")
  {
    WireKeepsType(fs);
    WireKeepsRequired(fs);
    WireGetAdditional(fs);
    WirePops(fs, "const");
    WireEnum(fs);
    if Has(fs, "const") {
      Singleton(v, Get(fs, "const").value);
    }
  }

  /** Beside an enumeration the constant is dropped. Nothing is lost by that exactly when the
      enumeration holds no value other than the constant. */
  lemma DroppedConstIsLosslessIff(fs: Fields, c: Json, vals: seq<Json>)
    requires Get(fs, "const") == Some(c) && Get(fs, "enum") == Some(Arr(vals))
    ensures (forall v ::
              EnumHolds(Get(Wire(fs), "enum"), v) <==> EnumHolds(Get(fs, "enum"), v) && ConstHolds(Get(fs, "const"), v))
            <==> (forall i | 0 <= i < |vals| :: JsonEq(vals[i], c))
  {
    WireEnum(fs);
    if forall i | 0 <= i < |vals| :: JsonEq(vals[i], c) {
      forall v | EnumHolds(Some(Arr(vals)), v) ensures JsonEq(v, c) {
        var i :| 0 <= i < |vals| && JsonEq(v, vals[i]);
        JsonEqTransitive(v, vals[i], c);
      }
    } else {
      var i :| 0 <= i < |vals| && !JsonEq(vals[i], c);
      JsonEqReflexive(vals[i]);
      assert EnumHolds(Some(Arr(vals)), vals[i]);
    }
  }

  lemma CardinalityGone(fs: Fields)
    ensures !Has(Wire(fs), "minLength") && !Has(Wire(fs), "maxLength") && !Has(Wire(fs), "pattern")
    ensures !Has(Wire(fs), "minItems") && !Has(Wire(fs), "maxItems")
  {
    WirePops(fs, "minLength");
    WirePops(fs, "maxLength");
    WirePops(fs, "pattern");
    WirePops(fs, "minItems");
    WirePops(fs, "maxItems");
  }

  lemma AssertionsRelax(env: Env, fs: Fields, v: Json)
    requires Assertions(env, fs, v)
    ensures Assertions(env, Wire(fs), v)
  {
    WireKeepsMinimum(fs);
    WireKeepsMaximum(fs);
    WireKeepsShape(fs, v);
    WireFormat(fs);
    CardinalityGone(fs);
  }

  // ---- the subschemas of a wired node ----

  lemma PropertiesValue(fs: Fields)
    ensures Has(fs, "properties") ==>
              var p := Get(fs, "properties").value;
              WireValue("properties", p) == if p.Obj? then Obj(WireMembers(p.fields)) else p
  {
    assert "properties" in G_MAPS && "properties" !in G_ARRAYS;
  }

  lemma WireGetItems(fs: Fields)
    ensures Get(Wire(fs), "items") ==
            (match Get(fs, "items") case None => None case Some(v) => Some(WireNode(v)))
  {
    assert G_SINGLES[0] == "items";
    WireSingle(fs, "items");
  }

  lemma WireGetArray(fs: Fields, key: string)
    requires key == "prefixItems" || key == "anyOf" || key == "allOf"
    ensures match Get(fs, key)
            case Some(Arr(subs)) => Get(Wire(fs), key) == Some(Arr(WireItems(subs)))
            case other =>
              || Get(Wire(fs), key) == other
              || (other.Some? && other.value.Obj? && Get(Wire(fs), key) == other)
  {
    WireGet(fs, key);
    assert key !in G_MAPS && key !in G_SINGLES && key in G_ARRAYS;
  }

  lemma WireAbsent(fs: Fields, key: string)
    requires key == "oneOf" || key == "not" || key == "if"
    requires !Has(fs, key)
    ensures !Has(Wire(fs), key)
  {
    WireGet(fs, key);
  }

  lemma WireGetRef(fs: Fields)
    ensures Get(Wire(fs), "$ref") == Get(fs, "$ref")
  {
    WireKeeps(fs, "$ref");
  }

  // ---- relaxation of each applicator ----

  /** The reference at a node resolves in `w` to the wire form of what it names in `c`. */
  predicate RefMatches(root: Fields, c: Resolver, w: Resolver, n: Fields) {
    match Get(n, "$ref")
    case Some(Str(r)) => c(r).Some? ==> Visited(root, c(r).value) && w(r) == Some(WireNode(c(r).value))
    case _ => true
  }

  ghost predicate Scope(root: Fields, c: Resolver, w: Resolver) {
    && Monotone(root)
    && forall n {:trigger RefMatches(root, c, w, n)} | n in Nodes(StrictSchema.StrictSlots(), root) ::
         RefMatches(root, c, w, n)
  }

  lemma PropertyVisited(root: Fields, fs: Fields, ps: Fields, k: string)
    requires Visited(root, Obj(fs)) && Get(fs, "properties") == Some(Obj(ps)) && Has(ps, k)
    ensures Visited(root, Get(ps, k).value)
  {
    if Get(ps, k).value.Obj? {
      assert StrictSchema.MAP_CHILDREN[2] == "properties";
      MapChildVisited(StrictSchema.StrictSlots(), root, fs, "properties", ps, k);
    }
  }

  lemma SingleSlots(keyword: string)
    requires keyword == "additionalProperties" || keyword == "items"
    ensures keyword in StrictSchema.SINGLE_CHILDREN && keyword !in StrictSchema.MAP_CHILDREN
  {
    assert StrictSchema.SINGLE_CHILDREN[0] == "items" && StrictSchema.SINGLE_CHILDREN[1] == "additionalProperties";
  }

  lemma SingleVisited(root: Fields, fs: Fields, keyword: string)
    requires Visited(root, Obj(fs)) && Has(fs, keyword)
    requires keyword in StrictSchema.SINGLE_CHILDREN && keyword !in StrictSchema.MAP_CHILDREN
    ensures Visited(root, Get(fs, keyword).value)
  {
    if Get(fs, keyword).value.Obj? {
      SingleChildVisited(StrictSchema.StrictSlots(), root, fs, keyword, Get(fs, keyword).value.fields);
    }
  }

  lemma ListVisited(root: Fields, fs: Fields, keyword: string, subs: seq<Json>, i: nat)
    requires Visited(root, Obj(fs)) && Get(fs, keyword) == Some(Arr(subs)) && i < |subs|
    requires keyword == "prefixItems" || keyword == "anyOf" || keyword == "allOf"
    ensures Visited(root, subs[i])
  {
    if subs[i].Obj? {
      assert StrictSchema.ARRAY_CHILDREN[0] == "anyOf" && StrictSchema.ARRAY_CHILDREN[2] == "allOf"
          && StrictSchema.ARRAY_CHILDREN[3] == "prefixItems";
      ListChildVisited(StrictSchema.StrictSlots(), root, fs, keyword, subs, i);
    }
  }

  lemma {:induction false} RefRelaxes(env: Env, root: Fields, c: Resolver, w: Resolver, fs: Fields, r: string,
                                      v: Json, fuel: nat)
    requires Scope(root, c, w) && Visited(root, Obj(fs)) && Get(fs, "$ref") == Some(Str(r))
    requires RefHolds(env, c, Str(r), v, fuel)
    ensures RefHolds(env, w, Str(r), v, fuel)
    decreases fuel, fs, 1
  {
    assert RefMatches(root, c, w, fs);
    var target, less := c(r).value, fuel - 1;
    assert Accepts(env, c, target, v, less);
    Relax(env, root, c, w, target, v, less);
  }

  lemma {:induction false} PropertiesRelax(env: Env, root: Fields, c: Resolver, w: Resolver, fs: Fields, ps: Fields,
                                           members: Fields, fuel: nat)
    requires Scope(root, c, w) && Visited(root, Obj(fs)) && Get(fs, "properties") == Some(Obj(ps))
    requires PropertiesHold(env, c, ps, members, fuel)
    ensures PropertiesHold(env, w, WireMembers(ps), members, fuel)
    decreases fuel, ps, 0
  {
    forall k | Has(WireMembers(ps), k) && Has(members, k)
      ensures Accepts(env, w, Get(WireMembers(ps), k).value, Get(members, k).value, fuel)
    {
      PropertyVisited(root, fs, ps, k);
      Relax(env, root, c, w, Get(ps, k).value, Get(members, k).value, fuel);
    }
  }

  lemma {:induction false} AdditionalRelaxes(env: Env, root: Fields, c: Resolver, w: Resolver, fs: Fields, sub: Json,
                                             ps: Fields, members: Fields, fuel: nat)
    requires Scope(root, c, w) && Visited(root, Obj(fs)) && Get(fs, "additionalProperties") == Some(sub)
    requires AdditionalHold(env, c, sub, ps, members, fuel)
    ensures AdditionalHold(env, w, WireNode(sub), WireMembers(ps), members, fuel)
    decreases fuel, sub, 1
  {
    SingleSlots("additionalProperties");
    SingleVisited(root, fs, "additionalProperties");
    forall k | !Has(WireMembers(ps), k) && Has(members, k)
      ensures Accepts(env, w, WireNode(sub), Get(members, k).value, fuel)
    {
      Relax(env, root, c, w, sub, Get(members, k).value, fuel);
    }
  }

  lemma {:induction false} ItemsRelax(env: Env, root: Fields, c: Resolver, w: Resolver, fs: Fields, sub: Json,
                                      items: seq<Json>, from: nat, fuel: nat)
    requires Scope(root, c, w) && Visited(root, Obj(fs)) && Get(fs, "items") == Some(sub)
    requires ItemsHold(env, c, sub, items, from, fuel)
    ensures ItemsHold(env, w, WireNode(sub), items, from, fuel)
    decreases fuel, sub, 1
  {
    SingleSlots("items");
    SingleVisited(root, fs, "items");
    forall i | from <= i < |items| ensures Accepts(env, w, WireNode(sub), items[i], fuel) {
      Relax(env, root, c, w, sub, items[i], fuel);
    }
  }

  lemma {:induction false} PrefixRelaxes(env: Env, root: Fields, c: Resolver, w: Resolver, fs: Fields,
                                         subs: seq<Json>, items: seq<Json>, fuel: nat)
    requires Scope(root, c, w) && Visited(root, Obj(fs)) && Get(fs, "prefixItems") == Some(Arr(subs))
    requires PrefixHold(env, c, subs, items, fuel)
    ensures PrefixHold(env, w, WireItems(subs), items, fuel)
    decreases fuel, subs, 0
  {
    forall i | 0 <= i < |subs| && i < |items| ensures Accepts(env, w, WireItems(subs)[i], items[i], fuel) {
      ListVisited(root, fs, "prefixItems", subs, i);
      Relax(env, root, c, w, subs[i], items[i], fuel);
    }
  }

  lemma {:induction false} AnyRelaxes(env: Env, root: Fields, c: Resolver, w: Resolver, fs: Fields, subs: seq<Json>,
                                      v: Json, fuel: nat)
    requires Scope(root, c, w) && Visited(root, Obj(fs)) && Get(fs, "anyOf") == Some(Arr(subs))
    requires AnyHolds(env, c, subs, v, fuel)
    ensures AnyHolds(env, w, WireItems(subs), v, fuel)
    decreases fuel, subs, 0
  {
    var i :| 0 <= i < |subs| && Accepts(env, c, subs[i], v, fuel);
    ListVisited(root, fs, "anyOf", subs, i);
    Relax(env, root, c, w, subs[i], v, fuel);
    assert Accepts(env, w, WireItems(subs)[i], v, fuel);
  }

  lemma {:induction false} AllRelaxes(env: Env, root: Fields, c: Resolver, w: Resolver, fs: Fields, subs: seq<Json>,
                                      v: Json, fuel: nat)
    requires Scope(root, c, w) && Visited(root, Obj(fs)) && Get(fs, "allOf") == Some(Arr(subs))
    requires AllHold(env, c, subs, v, fuel)
    ensures AllHold(env, w, WireItems(subs), v, fuel)
    decreases fuel, subs, 0
  {
    forall i | 0 <= i < |subs| ensures Accepts(env, w, WireItems(subs)[i], v, fuel) {
      ListVisited(root, fs, "allOf", subs, i);
      Relax(env, root, c, w, subs[i], v, fuel);
    }
  }

  // ---- the theorem ----

  lemma {:induction false} RefPartRelaxes(env: Env, root: Fields, c: Resolver, w: Resolver, fs: Fields, v: Json,
                                          fuel: nat)
    requires Scope(root, c, w) && Visited(root, Obj(fs)) && RefPart(env, c, fs, v, fuel)
    ensures RefPart(env, w, Wire(fs), v, fuel)
    decreases fuel, fs, 2
  {
    WireGetRef(fs);
    match Get(fs, "$ref")
    case Some(Str(r)) => RefRelaxes(env, root, c, w, fs, r, v, fuel);
    case _ =>
  }

  lemma {:induction false} ObjectPartsRelax(env: Env, root: Fields, c: Resolver, w: Resolver, fs: Fields,
                                            members: Fields, fuel: nat)
    requires Scope(root, c, w) && Visited(root, Obj(fs))
    requires PropertiesPart(env, c, fs, members, fuel) && AdditionalPart(env, c, fs, members, fuel)
    ensures PropertiesPart(env, w, Wire(fs), members, fuel)
    ensures AdditionalPart(env, w, Wire(fs), members, fuel)
    decreases fuel, fs, 1
  {
    WireGetProperties(fs);
    WireGetAdditional(fs);
    PropertiesValue(fs);
    var ps := Members(Get(fs, "properties"));
    if Has(fs, "properties") && Get(fs, "properties").value.Obj? {
      PropertiesRelax(env, root, c, w, fs, ps, members, fuel);
    }
    if Has(fs, "additionalProperties") {
      AdditionalRelaxes(env, root, c, w, fs, Get(fs, "additionalProperties").value, ps, members, fuel);
    }
  }

  lemma {:induction false} ArrayPartsRelax(env: Env, root: Fields, c: Resolver, w: Resolver, fs: Fields,
                                           items: seq<Json>, fuel: nat)
    requires Scope(root, c, w) && Visited(root, Obj(fs))
    requires PrefixPart(env, c, fs, items, fuel) && ItemsPart(env, c, fs, items, fuel)
    ensures PrefixPart(env, w, Wire(fs), items, fuel)
    ensures ItemsPart(env, w, Wire(fs), items, fuel)
    decreases fuel, fs, 1
  {
    WireGetArray(fs, "prefixItems");
    WireGetItems(fs);
    if Has(fs, "prefixItems") && Get(fs, "prefixItems").value.Arr? {
      PrefixRelaxes(env, root, c, w, fs, Get(fs, "prefixItems").value.items, items, fuel);
    }
    if Has(fs, "items") {
      ItemsRelax(env, root, c, w, fs, Get(fs, "items").value, items, |Elements(Get(fs, "prefixItems"))|, fuel);
    }
  }

  lemma {:induction false} CombinatorsRelax(env: Env, root: Fields, c: Resolver, w: Resolver, fs: Fields, v: Json,
                                            fuel: nat)
    requires Scope(root, c, w) && Visited(root, Obj(fs))
    requires AnyPart(env, c, fs, v, fuel) && AllPart(env, c, fs, v, fuel)
    ensures AnyPart(env, w, Wire(fs), v, fuel) && AllPart(env, w, Wire(fs), v, fuel)
    decreases fuel, fs, 1
  {
    WireGetArray(fs, "anyOf");
    WireGetArray(fs, "allOf");
    if Has(fs, "anyOf") && Get(fs, "anyOf").value.Arr? {
      AnyRelaxes(env, root, c, w, fs, Get(fs, "anyOf").value.items, v, fuel);
    }
    if Has(fs, "allOf") && Get(fs, "allOf").value.Arr? {
      AllRelaxes(env, root, c, w, fs, Get(fs, "allOf").value.items, v, fuel);
    }
  }

  lemma {:induction false} ApplicatorsRelax(env: Env, root: Fields, c: Resolver, w: Resolver, fs: Fields, v: Json,
                                            fuel: nat)
    requires Scope(root, c, w) && Visited(root, Obj(fs)) && Applicators(env, c, fs, v, fuel)
    ensures Applicators(env, w, Wire(fs), v, fuel)
    decreases fuel, fs, 3
  {
    assert NoNegation(fs);
    WireAbsent(fs, "oneOf");
    WireAbsent(fs, "not");
    WireAbsent(fs, "if");
    RefPartRelaxes(env, root, c, w, fs, v, fuel);
    CombinatorsRelax(env, root, c, w, fs, v, fuel);
    if v.Obj? {
      ObjectPartsRelax(env, root, c, w, fs, v.fields, fuel);
    }
    if v.Arr? {
      ArrayPartsRelax(env, root, c, w, fs, v.items, fuel);
    }
  }

  /** Every value a visited subschema accepts in the canonical schema, its wire view accepts
      in the wire schema, whatever number of references is followed. */
  lemma {:induction false} Relax(env: Env, root: Fields, c: Resolver, w: Resolver, s: Json, v: Json, fuel: nat)
    requires Scope(root, c, w) && Visited(root, s) && Accepts(env, c, s, v, fuel)
    ensures Accepts(env, w, WireNode(s), v, fuel)
    decreases fuel, s, 0
  {
    if s.Obj? {
      AssertionsRelax(env, s.fields, v);
      ApplicatorsRelax(env, root, c, w, s.fields, v, fuel);
    }
  }

  lemma ResolveWire(root: Fields, fs: Fields)
    requires RefsNameSchemas(root) && Visited(root, Obj(fs))
    ensures RefMatches(root, Locals(Obj(root)), Locals(Obj(Wire(root))), fs)
  {
    assert RefNamesSchema(root, fs);
    RootIsVisited(StrictSchema.StrictSlots(), root);
    match Get(fs, "$ref")
    case Some(Str(r)) =>
      if IsLocal(r) && Resolve(Obj(root), r).Some? {
        DescendWire(root, Obj(root), Steps(r));
      }
    case _ =>
  }

  /** The provider is never asked for less than the canonical schema allows: what
      `specialize_provider_output_schema` returns accepts every canonical value. */
  lemma SpecializeRelaxes(env: Env, root: Fields, v: Json, fuel: nat)
    requires RefsNameSchemas(root) && Monotone(root) && Specialize(root).Ok?
    requires Accepts(env, Locals(Obj(root)), Obj(root), v, fuel)
    ensures Accepts(env, Locals(Obj(Specialize(root).value)), Obj(Specialize(root).value), v, fuel)
  {
    RootIsVisited(StrictSchema.StrictSlots(), root);
    forall n | n in Nodes(StrictSchema.StrictSlots(), root)
        ensures RefMatches(root, Locals(Obj(root)), Locals(Obj(Wire(root))), n) {
      ResolveWire(root, n);
    }
    Relax(env, root, Locals(Obj(root)), Locals(Obj(Wire(root))), Obj(root), v, fuel);
  }
}
