/** Two small schemas that meet the premises of the schema theorems: one that the batch passes
    send as it is, and one whose property they would lose. */
module SchemaExample {
  import opened Json
  import opened SchemaWalk
  import opened GeminiWire
  import opened Inline
  import opened BatchPipeline
  import opened BatchResults
  import opened SchemaSemantics
  import GeminiRelaxation
  import StrictSchema

  const LEAF: Fields := Field("type", Str("string"), Empty)

  /** An object with one property, a string. */
  function Closed(p: string): Fields {
    Field("type", Str("object"),
    Field("properties", Obj(Field(p, Obj(LEAF), Empty)),
    Field("required", Arr([Str(p)]),
    Field("additionalProperties", Bool(false), Empty))))
  }

  lemma ClosedGet(p: string, k: string)
    ensures Get(Closed(p), k) ==
              if k == "type" then Some(Str("object"))
              else if k == "properties" then Some(Obj(Field(p, Obj(LEAF), Empty)))
              else if k == "required" then Some(Arr([Str(p)]))
              else if k == "additionalProperties" then Some(Bool(false))
              else None
  {
    var d := Field("additionalProperties", Bool(false), Empty);
    var c := Field("required", Arr([Str(p)]), d);
    var b := Field("properties", Obj(Field(p, Obj(LEAF), Empty)), c);
    assert Get(d, k) == if k == "additionalProperties" then Some(Bool(false)) else None;
    assert Get(c, k) == if k == "required" then Some(Arr([Str(p)])) else Get(d, k);
    assert Get(b, k) == if k == "properties" then Some(Obj(Field(p, Obj(LEAF), Empty))) else Get(c, k);
  }

  lemma ClosedIsUnique(p: string)
    ensures UniqueFields(Closed(p))
  {
    var d := Field("additionalProperties", Bool(false), Empty);
    assert UniqueFields(d);
    var c := Field("required", Arr([Str(p)]), d);
    assert UniqueFields(c);
    var b := Field("properties", Obj(Field(p, Obj(LEAF), Empty)), c);
    var ps := Field(p, Obj(LEAF), Empty);
    assert UniqueFields(LEAF) && UniqueKeys(Obj(LEAF));
    assert UniqueFields(ps) && UniqueKeys(Obj(ps));
    assert Get(d, "properties") == None && Get(c, "properties") == None;
    assert UniqueFields(b);
    assert Get(d, "type") == None && Get(c, "type") == None && Get(b, "type") == None;
  }

  // ---- the nodes ----

  lemma {:induction false} WalkWithin(slots: Slots, fs: Fields, path: string, plain: bool, e: Entry, all: set<Fields>)
    requires fs in all && e in Walk(slots, fs, path, plain)
    requires forall n, c | n in all && c in IterChildren(slots, n) :: c.node in all
    ensures e.node in all
    decreases fs
  {
    if e != Entry(path, plain, fs) {
      var c := WalkAllFrom(slots, fs, IterChildren(slots, fs), path, plain, e);
      WalkWithin(slots, c.node, path + c.suffix, plain && c.plain, e, all);
    }
  }

  lemma NodesWithin(slots: Slots, fs: Fields, all: set<Fields>)
    requires fs in all && forall n, c | n in all && c in IterChildren(slots, n) :: c.node in all
    ensures Nodes(slots, fs) <= all
  {
    forall n | n in Nodes(slots, fs) ensures n in all {
      var e :| e in Walk(slots, fs, "$", true) && e.node == n;
      WalkWithin(slots, fs, "$", true, e, all);
    }
  }

  lemma LeafChildren(slots: Slots, c: Child)
    ensures c !in IterChildren(slots, LEAF)
  {
    if c in IterChildren(slots, LEAF) {
      var k :| k in slots.All() && c in ChildrenOf(slots, LEAF, k);
      assert Get(LEAF, k).None? || Get(LEAF, k).value.Str?;
    }
  }

  lemma LeafNodes(slots: Slots)
    ensures Nodes(slots, LEAF) <= {LEAF}
  {
    forall c ensures c !in IterChildren(slots, LEAF) {
      LeafChildren(slots, c);
    }
    NodesWithin(slots, LEAF, {LEAF});
  }

  lemma ClosedChildren(p: string, c: Child)
    requires c in IterChildren(StrictSchema.StrictSlots(), Closed(p))
    ensures c.node == LEAF
  {
    hide Closed, Get, MemberChildren, ItemChildren;
    var slots := StrictSchema.StrictSlots();
    var k :| k in slots.All() && c in ChildrenOf(slots, Closed(p), k);
    ClosedGet(p, k);
    RequiredIsNoList();
    if k == "properties" {
      assert StrictSchema.MAP_CHILDREN[2] == "properties";
      OnlyMember(k, p, c);
    }
  }

  lemma OnlyMember(keyword: string, p: string, c: Child)
    requires c in MemberChildren(keyword, Field(p, Obj(LEAF), Empty))
    ensures c.node == LEAF
  {
  }

  lemma RequiredIsNoList()
    ensures !StrictSchema.StrictSlots().IsList("required")
  {
  }

  lemma ClosedNodes(p: string)
    ensures Nodes(StrictSchema.StrictSlots(), Closed(p)) <= {Closed(p), LEAF}
  {
    var slots, all := StrictSchema.StrictSlots(), {Closed(p), LEAF};
    forall n, c | n in all && c in IterChildren(slots, n) ensures c.node in all {
      if n == LEAF {
        LeafChildren(slots, c);
      } else {
        ClosedChildren(p, c);
      }
    }
    NodesWithin(slots, Closed(p), all);
  }

  // ---- the premises ----

  lemma LeafIsStrict(root: Fields)
    ensures StrictSchema.NodeViolations(root, LEAF) == []
  {
    assert "type" in Names(LEAF) && StrictSchema.IsAssertionKeyword("type");
  }

  lemma ClosedIsStrict(p: string)
    ensures StrictSchema.NodeViolations(Closed(p), Closed(p)) == []
  {
    hide Closed, StrictSchema.Strings;
    ClosedGet(p, "default");
    ClosedGet(p, "$ref");
    ClosedGet(p, "type");
    ClosedGet(p, "properties");
    ClosedGet(p, "required");
    ClosedGet(p, "additionalProperties");
    assert Names(Field(p, Obj(LEAF), Empty)) == [p];
    assert StrictSchema.Strings([p]).items == [Str(p)];
    assert "type" in Names(Closed(p)) && StrictSchema.IsAssertionKeyword("type");
  }

  lemma ClosedIsShaped(p: string)
    ensures Shaped(Closed(p))
  {
    hide Closed;
    forall k ensures Has(Closed(p), k) ==>
                       k == "type" || k == "properties" || k == "required" || k == "additionalProperties"
    {
      ClosedGet(p, k);
    }
    ClosedGet(p, "type");
    ClosedGet(p, "properties");
    ClosedGet(p, "required");
    assert MembersAreSchemas(Field(p, Obj(LEAF), Empty));
  }

  lemma LeafIsReady()
    ensures StrictSchema.Strict(LEAF) && WellFormed(LEAF) && Monotone(LEAF)
  {
    LeafNodes(StrictSchema.StrictSlots());
    LeafIsStrict(LEAF);
    assert Shaped(LEAF) && RefNamesSchema(LEAF, LEAF) && NoNegation(LEAF);
  }

  lemma ClosedIsReady(p: string)
    ensures StrictSchema.Strict(Closed(p)) && WellFormed(Closed(p))
  {
    hide Shaped, StrictSchema.NodeViolations;
    ClosedNodes(p);
    LeafIsStrict(Closed(p));
    ClosedIsStrict(p);
    ClosedIsUnique(p);
    LeafIsShaped();
    ClosedIsShaped(p);
    ClosedGet(p, "$ref");
    assert RefNamesSchema(Closed(p), LEAF) && RefNamesSchema(Closed(p), Closed(p));
  }

  lemma LeafIsShaped()
    ensures Shaped(LEAF)
  {
  }

  // ---- the passes ----

  lemma LeafIsWired()
    ensures Wire(LEAF) == LEAF && !Conflicted(LEAF)
  {
    assert WireFields(LEAF) == LEAF;
    assert LocalOnly()[0] == "minLength";
    forall k | k in LocalOnly() ensures !Has(LEAF, k) {
      LocalIsNotType(k);
    }
    StrictSchema.PopAllAbsent(LEAF, LocalOnly());
    LeafNodes(GeminiSlots());
  }

  lemma LocalIsNotType(k: string)
    requires k in LocalOnly()
    ensures k != "type"
  {
  }

  lemma LeafInlines()
    ensures InlineRefs(LEAF) == Ok(LEAF)
  {
    assert RefsIn(Obj(LEAF)) == {} && DefsFree(Obj(LEAF));
    ExpandFixed(Obj(LEAF), Obj(LEAF), []);
  }

  lemma LeafIsAccepted()
    ensures Refused(LEAF) == None
  {
    hide StrictSchema.NodeViolations, WellFormed, Monotone, StrictSchema.Strict;
    LeafIsReady();
    LeafNodes(GeminiSlots());
    assert IsSupported("type") && NodeSupported(LEAF);
  }

  /** The passes send this schema as it is: the premises of `SpecializeRelaxes`,
      `BatchKeepsMeaning` and `BatchRelaxes` are met. */
  lemma LeafIsSent()
    ensures StrictSchema.Strict(LEAF) && WellFormed(LEAF) && Monotone(LEAF)
    ensures Specialize(LEAF) == Ok(LEAF) && BatchSchema(LEAF) == Ok(LEAF)
  {
    LeafIsReady();
    LeafIsWired();
    LeafInlines();
    LeafIsAccepted();
    hide Wire, InlineRefs, Refused, Conflicted, WellFormed, StrictSchema.Strict, Monotone;
    assert BatchSchema(LEAF) == Ok(LEAF);
  }

  /** And this one is refused: strict and well formed, with a property the passes would lose. */
  lemma LostExample()
    ensures StrictSchema.Strict(Closed("definitions")) && WellFormed(Closed("definitions"))
    ensures IsPath(Closed("definitions"), [Closed("definitions")])
    ensures BatchSchema(Closed("definitions")).Err?
  {
    var p := "definitions";
    ClosedIsReady(p);
    ClosedGet(p, "properties");
    ClosedGet(p, "$ref");
    LostPropertyIsRejected(Closed(p), [Closed(p)], Field(p, Obj(LEAF), Empty), p);
  }

  /** What happens to that property: inlining leaves the object without it. */
  lemma LossExample()
    ensures Get(Closed("definitions"), "properties") == Some(Obj(Field("definitions", Obj(LEAF), Empty)))
    ensures InlineRefs(Closed("definitions")).Ok?
    ensures Get(InlineRefs(Closed("definitions")).value, "properties") == Some(Obj(Empty))
  {
    var root := Obj(Closed("definitions"));
    var d := Field("additionalProperties", Bool(false), Empty);
    var c := Field("required", Arr([Str("definitions")]), d);
    var ps := Field("definitions", Obj(LEAF), Empty);
    var b := Field("properties", Obj(ps), c);
    assert RefsIn(Obj(LEAF)) == {};
    assert RefsInFields(ps) == {};
    assert [Str("definitions")][1..] == [];
    assert RefsIn(Arr([Str("definitions")])) == {};
    assert RefsInFields(d) == {} && RefsInFields(c) == {} && RefsInFields(b) == {};
    assert RefsIn(root) == {};
    assert ExpandFields(root, ps, []) == Ok(Empty);
    assert Expand(root, Obj(ps), []) == Ok(Obj(Empty));
    assert ExpandItems(root, [], []) == Ok([]);
    assert Expand(root, Arr([Str("definitions")]), []).Ok?;
    assert ExpandFields(root, d, []).Ok?;
    assert ExpandFields(root, c, []).Ok?;
    assert ExpandFields(root, b, []).Ok? && Get(ExpandFields(root, b, []).value, "properties") == Some(Obj(Empty));
  }

  // ---- a constant beside a wider enumeration ----

  const WIDER: Fields := Field("const", Str("a"), Field("enum", Arr([Str("a"), Str("b")]), Empty))

  lemma WiderGet(k: string)
    ensures Get(WIDER, k) ==
              if k == "const" then Some(Str("a"))
              else if k == "enum" then Some(Arr([Str("a"), Str("b")]))
              else None
  {
    var inner := Field("enum", Arr([Str("a"), Str("b")]), Empty);
    assert Get(inner, k) == if k == "enum" then Some(Arr([Str("a"), Str("b")])) else None;
  }

  lemma EnumIsNoList()
    ensures !GeminiSlots().IsList("enum")
  {
  }

  lemma WiderChildren(c: Child)
    ensures c !in IterChildren(GeminiSlots(), WIDER)
  {
    hide WIDER, Get, MemberChildren, ItemChildren;
    var slots := GeminiSlots();
    if c in IterChildren(slots, WIDER) {
      var k :| k in slots.All() && c in ChildrenOf(slots, WIDER, k);
      WiderGet(k);
      EnumIsNoList();
    }
  }

  lemma WiderIsNoConflict()
    ensures !Conflicted(WIDER)
  {
    hide WIDER, Get, IterChildren;
    forall c ensures c !in IterChildren(GeminiSlots(), WIDER) {
      WiderChildren(c);
    }
    NodesWithin(GeminiSlots(), WIDER, {WIDER});
    WiderGet("const");
    WiderGet("enum");
    assert PyEq(Str("a"), [Str("a"), Str("b")][0]);
  }

  /** The wire view has the enumeration and nothing else. */
  lemma WiderWire(k: string)
    ensures Get(Wire(WIDER), k) == if k == "enum" then Some(Arr([Str("a"), Str("b")])) else None
  {
    hide WIDER;
    WiderGet(k);
    WiderGet("const");
    WiderGet("enum");
    GeminiRelaxation.WireEnum(WIDER);
    if GeminiRelaxation.IsPopped(k) {
      GeminiRelaxation.WirePops(WIDER, k);
    } else if k == "format" {
      GeminiRelaxation.WireFormat(WIDER);
    } else if k != "enum" {
      WireGet(WIDER, k);
    }
  }

  lemma OnlyAsserts(env: Env, fs: Fields, v: Json)
    requires forall k | k != "enum" :: Get(fs, k) == None
    ensures Assertions(env, fs, v) <==> EnumHolds(Get(fs, "enum"), v)
  {
    hide EnumHolds;
    assert Get(fs, "type") == None && Get(fs, "const") == None && Get(fs, "required") == None;
    assert Get(fs, "minimum") == None && Get(fs, "maximum") == None && Get(fs, "minLength") == None;
    assert Get(fs, "maxLength") == None && Get(fs, "minItems") == None && Get(fs, "maxItems") == None;
    assert Get(fs, "pattern") == None && Get(fs, "format") == None;
  }

  lemma AppliesNothing(env: Env, refs: Resolver, fs: Fields, v: Json, fuel: nat)
    requires forall k | k != "enum" :: Get(fs, k) == None
    ensures Applicators(env, refs, fs, v, fuel)
  {
    assert Get(fs, "$ref") == None && Get(fs, "properties") == None && Get(fs, "additionalProperties") == None;
    assert Get(fs, "prefixItems") == None && Get(fs, "items") == None && Get(fs, "anyOf") == None;
    assert Get(fs, "allOf") == None && Get(fs, "oneOf") == None && Get(fs, "not") == None && Get(fs, "if") == None;
  }

  /** Specialising succeeds and weakens the schema: the canonical node refuses "b", the one that
      is sent accepts it. */
  lemma ConstIsLost(env: Env, refs: Resolver, fuel: nat)
    ensures Specialize(WIDER).Ok?
    ensures !Accepts(env, refs, Obj(WIDER), Str("b"), fuel)
    ensures Accepts(env, refs, Obj(Specialize(WIDER).value), Str("b"), fuel)
  {
    hide Wire, WIDER, Assertions, Applicators, Conflicted;
    WiderIsNoConflict();
    RefusesOther(env);
    var vals := [Str("a"), Str("b")];
    forall k | k != "enum" ensures Get(Wire(WIDER), k) == None {
      WiderWire(k);
    }
    WiderWire("enum");
    assert JsonEq(Str("b"), vals[1]);
    OnlyAsserts(env, Wire(WIDER), Str("b"));
    AppliesNothing(env, refs, Wire(WIDER), Str("b"), fuel);
  }

  lemma RefusesOther(env: Env)
    ensures !Assertions(env, WIDER, Str("b"))
  {
    hide WIDER;
    WiderGet("const");
    assert !ConstHolds(Get(WIDER, "const"), Str("b"));
  }
}
