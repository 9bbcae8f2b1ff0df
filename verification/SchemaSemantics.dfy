/** When a JSON value satisfies a JSON Schema: the applicators of JSON Schema Core 2020-12
    (sections 8.2.3.1, 10.2 and 10.3) and the assertions of JSON Schema Validation 2020-12
    (section 6) that the provider pipeline rewrites or must keep. */
module SchemaSemantics {
  import opened Json
  import opened Pointer

  /** Regular expressions and string formats are interpreted by the caller. */
  datatype Env = Env(matches: (string, string) -> bool, formatted: (string, string) -> bool)

  /** What a reference names. */
  type Resolver = string -> Option<Json>

  /** Local references, resolved against a document. */
  function Locals(root: Json): Resolver {
    (r: string) => if IsLocal(r) then Resolve(root, r) else None
  }

  /** JSON equality: objects do not care about key order. */
  ghost predicate JsonEq(a: Json, b: Json)
    decreases a
  {
    match a
    case Arr(xs) => b.Arr? && |xs| == |b.items| && forall i | 0 <= i < |xs| :: JsonEq(xs[i], b.items[i])
    case Obj(fs) =>
      && b.Obj?
      && (forall k :: Has(fs, k) <==> Has(b.fields, k))
      && (forall k | Has(fs, k) && Has(b.fields, k) :: JsonEq(Get(fs, k).value, Get(b.fields, k).value))
    case _ => a == b
  }

  lemma {:induction false} JsonEqReflexive(a: Json)
    ensures JsonEq(a, a)
  {
    match a
    case Arr(xs) =>
      forall i | 0 <= i < |xs| ensures JsonEq(xs[i], xs[i]) {
        JsonEqReflexive(xs[i]);
      }
    case Obj(fs) =>
      forall k | Has(fs, k) ensures JsonEq(Get(fs, k).value, Get(fs, k).value) {
        JsonEqReflexive(Get(fs, k).value);
      }
    case _ =>
  }

  lemma {:induction false} JsonEqTransitive(a: Json, b: Json, c: Json)
    requires JsonEq(a, b) && JsonEq(b, c)
    ensures JsonEq(a, c)
    decreases a
  {
    match a
    case Arr(xs) =>
      forall i | 0 <= i < |xs| ensures JsonEq(xs[i], c.items[i]) {
        JsonEqTransitive(xs[i], b.items[i], c.items[i]);
      }
    case Obj(fs) =>
      forall k | Has(fs, k) ensures JsonEq(Get(fs, k).value, Get(c.fields, k).value) {
        JsonEqTransitive(Get(fs, k).value, Get(b.fields, k).value, Get(c.fields, k).value);
      }
    case _ =>
  }

  // ---- assertions: decided by one keyword's value ----

  predicate TypeNamed(name: string, v: Json) {
    match v
    case Null => name == "null"
    case Bool(_) => name == "boolean"
    case Num(n) => name == "number" || (name == "integer" && n == n.Floor as real)
    case Str(_) => name == "string"
    case Arr(_) => name == "array"
    case Obj(_) => name == "object"
  }

  predicate TypeHolds(t: Option<Json>, v: Json) {
    match t
    case Some(Str(name)) => TypeNamed(name, v)
    case Some(Arr(ts)) => exists i | 0 <= i < |ts| :: ts[i].Str? && TypeNamed(ts[i].s, v)
    case _ => true
  }

  ghost predicate EnumHolds(e: Option<Json>, v: Json) {
    match e
    case Some(Arr(vals)) => exists i | 0 <= i < |vals| :: JsonEq(v, vals[i])
    case _ => true
  }

  ghost predicate ConstHolds(c: Option<Json>, v: Json) {
    c.Some? ==> JsonEq(v, c.value)
  }

  predicate RequiredHolds(r: Option<Json>, v: Json) {
    match r
    case Some(Arr(names)) =>
      v.Obj? ==> forall i | 0 <= i < |names| && names[i].Str? :: Has(v.fields, names[i].s)
    case _ => true
  }

  predicate MinimumHolds(m: Option<Json>, v: Json) {
    m.Some? && m.value.Num? && v.Num? ==> m.value.n <= v.n
  }

  predicate MaximumHolds(m: Option<Json>, v: Json) {
    m.Some? && m.value.Num? && v.Num? ==> v.n <= m.value.n
  }

  function Count(v: Json): nat {
    match v
    case Str(s) => |s|
    case Arr(items) => |items|
    case _ => 0
  }

  predicate AtLeast(m: Option<Json>, v: Json) {
    m.Some? && m.value.Num? ==> m.value.n <= Count(v) as real
  }

  predicate AtMost(m: Option<Json>, v: Json) {
    m.Some? && m.value.Num? ==> Count(v) as real <= m.value.n
  }

  predicate TextHolds(test: (string, string) -> bool, p: Option<Json>, v: Json) {
    p.Some? && p.value.Str? && v.Str? ==> test(p.value.s, v.s)
  }

  ghost predicate Assertions(env: Env, fs: Fields, v: Json) {
    && TypeHolds(Get(fs, "type"), v)
    && EnumHolds(Get(fs, "enum"), v)
    && ConstHolds(Get(fs, "const"), v)
    && RequiredHolds(Get(fs, "required"), v)
    && MinimumHolds(Get(fs, "minimum"), v)
    && MaximumHolds(Get(fs, "maximum"), v)
    && (v.Str? ==> AtLeast(Get(fs, "minLength"), v) && AtMost(Get(fs, "maxLength"), v))
    && (v.Arr? ==> AtLeast(Get(fs, "minItems"), v) && AtMost(Get(fs, "maxItems"), v))
    && TextHolds(env.matches, Get(fs, "pattern"), v)
    && TextHolds(env.formatted, Get(fs, "format"), v)
  }

  // ---- applicators ----

  function Members(m: Option<Json>): (r: Fields)
    ensures m.Some? && m.value.Obj? ==> r == m.value.fields
  {
    match m
    case Some(Obj(ms)) => ms
    case _ => Empty
  }

  function Elements(m: Option<Json>): (r: seq<Json>)
    ensures m.Some? && m.value.Arr? ==> r == m.value.items
  {
    match m
    case Some(Arr(xs)) => xs
    case _ => []
  }

  /** `fuel` bounds the references followed along one path; the meaning of a schema is the
      answer that no larger fuel changes. */
  ghost predicate Accepts(env: Env, refs: Resolver, schema: Json, v: Json, fuel: nat)
    decreases fuel, schema, 0
  {
    match schema
    case Bool(b) => b
    case Obj(fs) => Assertions(env, fs, v) && Applicators(env, refs, fs, v, fuel)
    case _ => false
  }

  ghost predicate Applicators(env: Env, refs: Resolver, fs: Fields, v: Json, fuel: nat)
    decreases fuel, fs, 2
  {
    && RefPart(env, refs, fs, v, fuel)
    && (v.Obj? ==> PropertiesPart(env, refs, fs, v.fields, fuel) && AdditionalPart(env, refs, fs, v.fields, fuel))
    && (v.Arr? ==> PrefixPart(env, refs, fs, v.items, fuel) && ItemsPart(env, refs, fs, v.items, fuel))
    && AnyPart(env, refs, fs, v, fuel)
    && AllPart(env, refs, fs, v, fuel)
    && OnePart(env, refs, fs, v, fuel)
    && NotPart(env, refs, fs, v, fuel)
    && IfPart(env, refs, fs, v, fuel)
  }

  ghost predicate RefPart(env: Env, refs: Resolver, fs: Fields, v: Json, fuel: nat)
    decreases fuel, fs, 1
  {
    match Get(fs, "$ref")
    case Some(r) => RefHolds(env, refs, r, v, fuel)
    case None => true
  }

  ghost predicate PropertiesPart(env: Env, refs: Resolver, fs: Fields, members: Fields, fuel: nat)
    decreases fuel, fs, 1
  {
    match Get(fs, "properties")
    case Some(Obj(ps)) => PropertiesHold(env, refs, ps, members, fuel)
    case _ => true
  }

  ghost predicate AdditionalPart(env: Env, refs: Resolver, fs: Fields, members: Fields, fuel: nat)
    decreases fuel, fs, 1
  {
    match Get(fs, "additionalProperties")
    case Some(sub) => AdditionalHold(env, refs, sub, Members(Get(fs, "properties")), members, fuel)
    case None => true
  }

  ghost predicate PrefixPart(env: Env, refs: Resolver, fs: Fields, items: seq<Json>, fuel: nat)
    decreases fuel, fs, 1
  {
    match Get(fs, "prefixItems")
    case Some(Arr(subs)) => PrefixHold(env, refs, subs, items, fuel)
    case _ => true
  }

  ghost predicate ItemsPart(env: Env, refs: Resolver, fs: Fields, items: seq<Json>, fuel: nat)
    decreases fuel, fs, 1
  {
    match Get(fs, "items")
    case Some(sub) => ItemsHold(env, refs, sub, items, |Elements(Get(fs, "prefixItems"))|, fuel)
    case None => true
  }

  ghost predicate AnyPart(env: Env, refs: Resolver, fs: Fields, v: Json, fuel: nat)
    decreases fuel, fs, 1
  {
    match Get(fs, "anyOf")
    case Some(Arr(subs)) => AnyHolds(env, refs, subs, v, fuel)
    case _ => true
  }

  ghost predicate AllPart(env: Env, refs: Resolver, fs: Fields, v: Json, fuel: nat)
    decreases fuel, fs, 1
  {
    match Get(fs, "allOf")
    case Some(Arr(subs)) => AllHold(env, refs, subs, v, fuel)
    case _ => true
  }

  ghost predicate OnePart(env: Env, refs: Resolver, fs: Fields, v: Json, fuel: nat)
    decreases fuel, fs, 1
  {
    match Get(fs, "oneOf")
    case Some(Arr(subs)) => OneHolds(env, refs, subs, v, fuel)
    case _ => true
  }

  ghost predicate NotPart(env: Env, refs: Resolver, fs: Fields, v: Json, fuel: nat)
    decreases fuel, fs, 1
  {
    match Get(fs, "not")
    case Some(sub) => !Accepts(env, refs, sub, v, fuel)
    case None => true
  }

  ghost predicate IfPart(env: Env, refs: Resolver, fs: Fields, v: Json, fuel: nat)
    decreases fuel, fs, 1
  {
    match Get(fs, "if")
    case Some(sub) =>
      if Accepts(env, refs, sub, v, fuel) then
        (match Get(fs, "then") case Some(t) => Accepts(env, refs, t, v, fuel) case None => true)
      else
        (match Get(fs, "else") case Some(e) => Accepts(env, refs, e, v, fuel) case None => true)
    case None => true
  }

  ghost predicate RefHolds(env: Env, refs: Resolver, r: Json, v: Json, fuel: nat)
    decreases fuel, r, 1
  {
    r.Str? ==>
      && fuel > 0
      && refs(r.s).Some?
      && Accepts(env, refs, refs(r.s).value, v, fuel - 1)
  }

  ghost predicate PropertiesHold(env: Env, refs: Resolver, ps: Fields, members: Fields, fuel: nat)
    decreases fuel, ps, 0
  {
    forall k | Has(ps, k) && Has(members, k) :: Accepts(env, refs, Get(ps, k).value, Get(members, k).value, fuel)
  }

  ghost predicate AdditionalHold(env: Env, refs: Resolver, sub: Json, ps: Fields, members: Fields, fuel: nat)
    decreases fuel, sub, 1
  {
    forall k | !Has(ps, k) && Has(members, k) :: Accepts(env, refs, sub, Get(members, k).value, fuel)
  }

  ghost predicate PrefixHold(env: Env, refs: Resolver, subs: seq<Json>, items: seq<Json>, fuel: nat)
    decreases fuel, subs, 0
  {
    forall i | 0 <= i < |subs| && i < |items| :: Accepts(env, refs, subs[i], items[i], fuel)
  }

  ghost predicate ItemsHold(env: Env, refs: Resolver, sub: Json, items: seq<Json>, from: nat, fuel: nat)
    decreases fuel, sub, 1
  {
    forall i | from <= i < |items| :: Accepts(env, refs, sub, items[i], fuel)
  }

  ghost predicate AnyHolds(env: Env, refs: Resolver, subs: seq<Json>, v: Json, fuel: nat)
    decreases fuel, subs, 0
  {
    exists i | 0 <= i < |subs| :: Accepts(env, refs, subs[i], v, fuel)
  }

  ghost predicate AllHold(env: Env, refs: Resolver, subs: seq<Json>, v: Json, fuel: nat)
    decreases fuel, subs, 0
  {
    forall i | 0 <= i < |subs| :: Accepts(env, refs, subs[i], v, fuel)
  }

  predicate ExactlyOne(verdicts: seq<bool>) {
    exists i | 0 <= i < |verdicts| :: verdicts[i] && forall j | 0 <= j < |verdicts| && verdicts[j] :: j == i
  }

  ghost function Verdicts(env: Env, refs: Resolver, subs: seq<Json>, v: Json, fuel: nat): (r: seq<bool>)
    ensures |r| == |subs|
    ensures forall i | 0 <= i < |subs| :: r[i] == Accepts(env, refs, subs[i], v, fuel)
    decreases fuel, subs, 0
  {
    seq(|subs|, i requires 0 <= i < |subs| => Accepts(env, refs, subs[i], v, fuel))
  }

  ghost predicate OneHolds(env: Env, refs: Resolver, subs: seq<Json>, v: Json, fuel: nat)
    decreases fuel, subs, 1
  {
    ExactlyOne(Verdicts(env, refs, subs, v, fuel))
  }
}
