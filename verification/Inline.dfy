/** Reference inlining for Gemini batch models: `_inline_gemini_batch_local_refs`
    (common/provider_schema_compatibility.py). It expands raw JSON, so it also walks into
    places that are not schemas. */
module Inline {
  import opened Collections
  import opened Json
  import opened Pointer
  import opened GeminiWire

  /** `value.get("$ref")` when it is a string: the node is replaced by what it names. */
  function Reference(fs: Fields): Option<string> {
    match Get(fs, "$ref")
    case Some(Str(r)) => Some(r)
    case _ => None
  }

  /** Every string stored under a `$ref` key, at any depth. */
  function RefsIn(j: Json): (r: set<string>)
    decreases j, 0
  {
    match j
    case Obj(fs) => (match Reference(fs) case Some(r) => {r} case None => {}) + RefsInFields(fs)
    case Arr(items) => RefsInItems(items)
    case _ => {}
  }

  function RefsInFields(fs: Fields): (r: set<string>)
    ensures forall k | Has(fs, k) :: RefsIn(Get(fs, k).value) <= r
    decreases fs, 0
  {
    match fs
    case Empty => {}
    case Field(_, v, rest) => RefsIn(v) + RefsInFields(rest)
  }

  function RefsInItems(items: seq<Json>): (r: set<string>)
    ensures forall i | 0 <= i < |items| :: RefsIn(items[i]) <= r
    decreases items, 0
  {
    if items == [] then {}
    else
      assert items decreases to items[0];
      RefsIn(items[0]) + RefsInItems(items[1..])
  }

  predicate IsDefs(key: string) {
    key == "$defs" || key == "definitions"
  }

  /** `resolve`: what a reference names, or why it cannot be inlined. */
  function Named(root: Json, reference: string): Result<Json, SchemaError> {
    if !IsLocal(reference) then Err(NonLocalReference)
    else
      match Resolve(root, reference)
      case None => Err(UnresolvedReference)
      case Some(target) => Ok(target)
  }

  lemma {:induction false} DescendRefs(j: Json, parts: seq<string>)
    requires Descend(j, parts).Some?
    ensures RefsIn(Descend(j, parts).value) <= RefsIn(j)
    decreases |parts|
  {
    if parts != [] {
      DescendRefs(Get(j.fields, parts[0]).value, parts[1..]);
    }
  }

  lemma NamedRefs(root: Json, reference: string)
    requires Named(root, reference).Ok?
    ensures RefsIn(Named(root, reference).value) <= RefsIn(root)
  {
    DescendRefs(root, Steps(reference));
  }

  /** `expand`. The distinct references not yet on the stack, then the value, get smaller. */
  function Expand(root: Json, v: Json, stack: seq<string>): Result<Json, SchemaError>
    requires RefsIn(v) <= RefsIn(root)
    decreases RefsIn(root) - Elems(stack), v, 1
  {
    match v
    case Obj(fs) =>
      (match Reference(fs)
       case Some(_) => Follow(root, fs, stack)
       case None =>
         match ExpandFields(root, fs, stack)
         case Err(e) => Err(e)
         case Ok(x) => Ok(Obj(x)))
    case Arr(items) =>
      (match ExpandItems(root, items, stack)
       case Err(e) => Err(e)
       case Ok(xs) => Ok(Arr(xs)))
    case _ => Ok(v)
  }

  function Follow(root: Json, node: Fields, stack: seq<string>): Result<Json, SchemaError>
    requires RefsIn(Obj(node)) <= RefsIn(root) && Reference(node).Some?
    decreases RefsIn(root) - Elems(stack), node, 0
  {
    var r := Reference(node).value;
    if r in stack then Err(CyclicReference)
    else
      match Named(root, r)
      case Err(e) => Err(e)
      case Ok(target) =>
        NamedRefs(root, r);
        assert r in RefsIn(root) - Elems(stack) && r !in RefsIn(root) - Elems(stack + [r]);
        Expand(root, target, stack + [r])
  }

  function ExpandFields(root: Json, fs: Fields, stack: seq<string>): Result<Fields, SchemaError>
    requires RefsInFields(fs) <= RefsIn(root)
    decreases RefsIn(root) - Elems(stack), fs, 0
  {
    match fs
    case Empty => Ok(Empty)
    case Field(k, v, rest) =>
      if IsDefs(k) then ExpandFields(root, rest, stack)
      else
        match Expand(root, v, stack)
        case Err(e) => Err(e)
        case Ok(x) =>
          match ExpandFields(root, rest, stack)
          case Err(e) => Err(e)
          case Ok(xs) => Ok(Field(k, x, xs))
  }

  function ExpandItems(root: Json, items: seq<Json>, stack: seq<string>): (r: Result<seq<Json>, SchemaError>)
    requires RefsInItems(items) <= RefsIn(root)
    ensures r.Ok? ==> |r.value| == |items|
    decreases RefsIn(root) - Elems(stack), items, 0
  {
    if items == [] then Ok([])
    else
      assert items decreases to items[0];
      match Expand(root, items[0], stack)
      case Err(e) => Err(e)
      case Ok(x) =>
        match ExpandItems(root, items[1..], stack)
        case Err(e) => Err(e)
        case Ok(xs) => Ok([x] + xs)
  }

  /** `_inline_gemini_batch_local_refs`. */
  function InlineRefs(root: Fields): Result<Fields, SchemaError> {
    match Expand(Obj(root), Obj(root), [])
    case Err(e) => Err(e)
    case Ok(Obj(x)) => Ok(x)
    case Ok(_) => Err(RootNotObject)
  }

  // ---- when inlining fails ----

  /** The references met in a value before any is followed: not below a reference, and not
      below a definitions key. */
  function DirectRefs(j: Json): set<string>
    decreases j, 0
  {
    match j
    case Obj(fs) => (match Reference(fs) case Some(r) => {r} case None => DirectRefsOfFields(fs))
    case Arr(items) => DirectRefsOfItems(items)
    case _ => {}
  }

  function DirectRefsOfFields(fs: Fields): set<string>
    decreases fs, 0
  {
    match fs
    case Empty => {}
    case Field(k, v, rest) => (if IsDefs(k) then {} else DirectRefs(v)) + DirectRefsOfFields(rest)
  }

  function DirectRefsOfItems(items: seq<Json>): set<string>
    decreases items, 0
  {
    if items == [] then {}
    else
      assert items decreases to items[0];
      DirectRefs(items[0]) + DirectRefsOfItems(items[1..])
  }

  /** A walk of the reference graph that starts in `v`: each reference is met directly in
      what the one before it names. */
  predicate Chain(root: Json, v: Json, c: seq<string>)
    decreases |c|
  {
    && c != []
    && c[0] in DirectRefs(v)
    && (|c| == 1 || (Named(root, c[0]).Ok? && Chain(root, Named(root, c[0]).value, c[1..])))
  }

  /** What is wrong with the last reference of a walk, if anything: it was met before, it is
      not local, or it names nothing. */
  function Fault(root: Json, stack: seq<string>, c: seq<string>): Option<SchemaError>
    requires c != []
  {
    var r := c[|c| - 1];
    if r in stack || r in c[..|c| - 1] then Some(CyclicReference)
    else
      match Named(root, r)
      case Err(e) => Some(e)
      case Ok(_) => None
  }

  lemma FaultAfter(root: Json, stack: seq<string>, r: string, c: seq<string>)
    requires c != []
    ensures Fault(root, stack, [r] + c) == Fault(root, stack + [r], c)
  {
    assert ([r] + c)[..|c|] == [r] + c[..|c| - 1];
  }

  lemma {:induction false} ErrHasChain(root: Json, v: Json, stack: seq<string>) returns (c: seq<string>)
    requires RefsIn(v) <= RefsIn(root) && Expand(root, v, stack).Err?
    ensures Chain(root, v, c) && Fault(root, stack, c) == Some(Expand(root, v, stack).error)
    decreases RefsIn(root) - Elems(stack), v, 1
  {
    match v
    case Obj(fs) =>
      if Reference(fs).Some? {
        c := FollowErrHasChain(root, fs, stack);
      } else {
        c := FieldsErrHasChain(root, fs, stack);
      }
    case Arr(items) => c := ItemsErrHasChain(root, items, stack);
    case _ =>
  }

  lemma {:induction false} FollowErrHasChain(root: Json, node: Fields, stack: seq<string>) returns (c: seq<string>)
    requires RefsIn(Obj(node)) <= RefsIn(root) && Reference(node).Some? && Follow(root, node, stack).Err?
    ensures Chain(root, Obj(node), c) && Fault(root, stack, c) == Some(Follow(root, node, stack).error)
    decreases RefsIn(root) - Elems(stack), node, 0
  {
    var r := Reference(node).value;
    c := [r];
    if r !in stack && Named(root, r).Ok? {
      NamedRefs(root, r);
      assert r in RefsIn(root) - Elems(stack) && r !in RefsIn(root) - Elems(stack + [r]);
      var below := ErrHasChain(root, Named(root, r).value, stack + [r]);
      FaultAfter(root, stack, r, below);
      c := [r] + below;
      assert c[1..] == below;
    }
  }

  lemma {:induction false} FieldsErrHasChain(root: Json, fs: Fields, stack: seq<string>) returns (c: seq<string>)
    requires RefsInFields(fs) <= RefsIn(root) && ExpandFields(root, fs, stack).Err?
    ensures c != [] && c[0] in DirectRefsOfFields(fs)
    ensures |c| == 1 || (Named(root, c[0]).Ok? && Chain(root, Named(root, c[0]).value, c[1..]))
    ensures Fault(root, stack, c) == Some(ExpandFields(root, fs, stack).error)
    decreases RefsIn(root) - Elems(stack), fs, 0
  {
    if !IsDefs(fs.key) && Expand(root, fs.val, stack).Err? {
      c := ErrHasChain(root, fs.val, stack);
    } else {
      c := FieldsErrHasChain(root, fs.rest, stack);
    }
  }

  lemma {:induction false} ItemsErrHasChain(root: Json, items: seq<Json>, stack: seq<string>) returns (c: seq<string>)
    requires RefsInItems(items) <= RefsIn(root) && ExpandItems(root, items, stack).Err?
    ensures c != [] && c[0] in DirectRefsOfItems(items)
    ensures |c| == 1 || (Named(root, c[0]).Ok? && Chain(root, Named(root, c[0]).value, c[1..]))
    ensures Fault(root, stack, c) == Some(ExpandItems(root, items, stack).error)
    decreases RefsIn(root) - Elems(stack), items, 0
  {
    assert items decreases to items[0];
    if Expand(root, items[0], stack).Err? {
      c := ErrHasChain(root, items[0], stack);
    } else {
      c := ItemsErrHasChain(root, items[1..], stack);
    }
  }

  lemma {:induction false} ChainIsErr(root: Json, v: Json, stack: seq<string>, c: seq<string>)
    requires RefsIn(v) <= RefsIn(root) && Chain(root, v, c) && Fault(root, stack, c).Some?
    ensures Expand(root, v, stack).Err?
    decreases RefsIn(root) - Elems(stack), v, 1
  {
    match v
    case Obj(fs) =>
      if Reference(fs).Some? {
        ChainIsFollowErr(root, fs, stack, c);
      } else {
        ChainIsFieldsErr(root, fs, stack, c);
      }
    case Arr(items) => ChainIsItemsErr(root, items, stack, c);
    case _ =>
  }

  lemma {:induction false} ChainIsFollowErr(root: Json, node: Fields, stack: seq<string>, c: seq<string>)
    requires RefsIn(Obj(node)) <= RefsIn(root) && Reference(node).Some?
    requires Chain(root, Obj(node), c) && Fault(root, stack, c).Some?
    ensures Follow(root, node, stack).Err?
    decreases RefsIn(root) - Elems(stack), node, 0
  {
    var r := Reference(node).value;
    if |c| > 1 && r !in stack {
      assert c == [r] + c[1..];
      FaultAfter(root, stack, r, c[1..]);
      NamedRefs(root, r);
      assert r in RefsIn(root) - Elems(stack) && r !in RefsIn(root) - Elems(stack + [r]);
      ChainIsErr(root, Named(root, r).value, stack + [r], c[1..]);
    }
  }

  lemma {:induction false} ChainIsFieldsErr(root: Json, fs: Fields, stack: seq<string>, c: seq<string>)
    requires RefsInFields(fs) <= RefsIn(root) && c != [] && c[0] in DirectRefsOfFields(fs)
    requires |c| == 1 || (Named(root, c[0]).Ok? && Chain(root, Named(root, c[0]).value, c[1..]))
    requires Fault(root, stack, c).Some?
    ensures ExpandFields(root, fs, stack).Err?
    decreases RefsIn(root) - Elems(stack), fs, 0
  {
    if !IsDefs(fs.key) && c[0] in DirectRefs(fs.val) {
      ChainIsErr(root, fs.val, stack, c);
    } else {
      ChainIsFieldsErr(root, fs.rest, stack, c);
    }
  }

  lemma {:induction false} ChainIsItemsErr(root: Json, items: seq<Json>, stack: seq<string>, c: seq<string>)
    requires RefsInItems(items) <= RefsIn(root) && c != [] && c[0] in DirectRefsOfItems(items)
    requires |c| == 1 || (Named(root, c[0]).Ok? && Chain(root, Named(root, c[0]).value, c[1..]))
    requires Fault(root, stack, c).Some?
    ensures ExpandItems(root, items, stack).Err?
    decreases RefsIn(root) - Elems(stack), items, 0
  {
    assert items decreases to items[0];
    if c[0] in DirectRefs(items[0]) {
      ChainIsErr(root, items[0], stack, c);
    } else {
      ChainIsItemsErr(root, items[1..], stack, c);
    }
  }

  /** Inlining fails exactly when some walk of references from the part of the schema outside
      its definitions repeats one, leaves the document or dangles; the error it raises is the
      fault of such a walk. The one other failure is a root that is itself a reference to
      something that is no object. */
  lemma InlineFailsIff(root: Fields)
    ensures var inlined := InlineRefs(root);
            (inlined.Err? && inlined.error != RootNotObject)
            <==> exists c :: Chain(Obj(root), Obj(root), c) && Fault(Obj(root), [], c).Some?
    ensures var inlined := InlineRefs(root);
            inlined.Err? && inlined.error != RootNotObject ==>
              exists c :: Chain(Obj(root), Obj(root), c) && Fault(Obj(root), [], c) == Some(inlined.error)
  {
    var expanded := Expand(Obj(root), Obj(root), []);
    if expanded.Err? {
      var c := ErrHasChain(Obj(root), Obj(root), []);
      assert expanded.error != RootNotObject;
    }
    forall c | Chain(Obj(root), Obj(root), c) && Fault(Obj(root), [], c).Some? ensures expanded.Err? {
      ChainIsErr(Obj(root), Obj(root), [], c);
    }
  }

  // ---- what inlining leaves ----

  /** No dictionary at any depth keeps a definitions key. */
  predicate DefsFree(j: Json)
    decreases j, 0
  {
    match j
    case Obj(fs) => DefsFreeFields(fs)
    case Arr(items) => forall i | 0 <= i < |items| :: DefsFree(items[i])
    case _ => true
  }

  predicate DefsFreeFields(fs: Fields)
    decreases fs, 0
  {
    match fs
    case Empty => true
    case Field(k, v, rest) => !IsDefs(k) && DefsFree(v) && DefsFreeFields(rest)
  }

  /** No reference names a string, so expanding a value never turns it into one. */
  predicate NoStringTargets(root: Json) {
    forall r | r in RefsIn(root) :: Named(root, r).Ok? ==> !Named(root, r).value.Str?
  }

  /** Expansion leaves no definitions key, whatever the schema. */
  lemma {:induction false} ExpandDropsDefs(root: Json, v: Json, stack: seq<string>)
    requires RefsIn(v) <= RefsIn(root) && Expand(root, v, stack).Ok?
    ensures DefsFree(Expand(root, v, stack).value)
    decreases RefsIn(root) - Elems(stack), v, 1
  {
    match v
    case Obj(fs) =>
      if Reference(fs).Some? {
        var r := Reference(fs).value;
        NamedRefs(root, r);
        assert r in RefsIn(root) - Elems(stack) && r !in RefsIn(root) - Elems(stack + [r]);
        ExpandDropsDefs(root, Named(root, r).value, stack + [r]);
      } else {
        ExpandFieldsDropsDefs(root, fs, stack);
      }
    case Arr(items) => ExpandItemsDropsDefs(root, items, stack);
    case _ =>
  }

  lemma {:induction false} ExpandFieldsDropsDefs(root: Json, fs: Fields, stack: seq<string>)
    requires RefsInFields(fs) <= RefsIn(root) && ExpandFields(root, fs, stack).Ok?
    ensures DefsFreeFields(ExpandFields(root, fs, stack).value)
    decreases RefsIn(root) - Elems(stack), fs, 0
  {
    if fs.Field? {
      ExpandFieldsDropsDefs(root, fs.rest, stack);
      if !IsDefs(fs.key) {
        ExpandDropsDefs(root, fs.val, stack);
      }
    }
  }

  lemma {:induction false} ExpandItemsDropsDefs(root: Json, items: seq<Json>, stack: seq<string>)
    requires RefsInItems(items) <= RefsIn(root) && ExpandItems(root, items, stack).Ok?
    ensures DefsFree(Arr(ExpandItems(root, items, stack).value))
    decreases RefsIn(root) - Elems(stack), items, 0
  {
    if items != [] {
      assert items decreases to items[0];
      ExpandDropsDefs(root, items[0], stack);
      ExpandItemsDropsDefs(root, items[1..], stack);
      var xs := ExpandItems(root, items, stack).value;
      assert xs[1..] == ExpandItems(root, items[1..], stack).value;
    }
  }

  lemma {:induction false} ExpandCloses(root: Json, v: Json, stack: seq<string>)
    requires NoStringTargets(root) && RefsIn(v) <= RefsIn(root) && Expand(root, v, stack).Ok?
    ensures var x := Expand(root, v, stack).value; RefsIn(x) == {} && (x.Str? <==> v.Str?)
    decreases RefsIn(root) - Elems(stack), v, 1
  {
    match v
    case Obj(fs) =>
      if Reference(fs).Some? {
        var r := Reference(fs).value;
        NamedRefs(root, r);
        assert r in RefsIn(root) - Elems(stack) && r !in RefsIn(root) - Elems(stack + [r]);
        ExpandCloses(root, Named(root, r).value, stack + [r]);
      } else {
        ExpandFieldsCloses(root, fs, stack);
      }
    case Arr(items) => ExpandItemsCloses(root, items, stack);
    case _ =>
  }

  /** Each field outside the definitions keeps its key and is expanded on its own. */
  lemma {:induction false} ExpandFieldsGet(root: Json, fs: Fields, stack: seq<string>, key: string)
    requires RefsInFields(fs) <= RefsIn(root) && ExpandFields(root, fs, stack).Ok?
    ensures var x := ExpandFields(root, fs, stack).value;
            if IsDefs(key) || !Has(fs, key) then !Has(x, key)
            else
              var v := Get(fs, key).value;
              Expand(root, v, stack).Ok? && Get(x, key) == Some(Expand(root, v, stack).value)
    decreases fs
  {
    if fs.Field? {
      ExpandFieldsGet(root, fs.rest, stack, key);
    }
  }

  lemma {:induction false} ExpandItemsAt(root: Json, items: seq<Json>, stack: seq<string>, i: nat)
    requires RefsInItems(items) <= RefsIn(root) && ExpandItems(root, items, stack).Ok? && i < |items|
    ensures Expand(root, items[i], stack) == Ok(ExpandItems(root, items, stack).value[i])
    decreases i
  {
    if i > 0 {
      ExpandItemsAt(root, items[1..], stack, i - 1);
    }
  }

  lemma {:induction false} ExpandFieldsCloses(root: Json, fs: Fields, stack: seq<string>)
    requires NoStringTargets(root) && RefsInFields(fs) <= RefsIn(root) && ExpandFields(root, fs, stack).Ok?
    ensures RefsInFields(ExpandFields(root, fs, stack).value) == {}
    ensures Reference(fs).None? ==> Reference(ExpandFields(root, fs, stack).value).None?
    decreases RefsIn(root) - Elems(stack), fs, 0
  {
    if fs.Field? {
      ExpandFieldsCloses(root, fs.rest, stack);
      if !IsDefs(fs.key) {
        ExpandCloses(root, fs.val, stack);
      }
    }
  }

  lemma {:induction false} ExpandItemsCloses(root: Json, items: seq<Json>, stack: seq<string>)
    requires NoStringTargets(root) && RefsInItems(items) <= RefsIn(root) && ExpandItems(root, items, stack).Ok?
    ensures RefsInItems(ExpandItems(root, items, stack).value) == {}
    decreases RefsIn(root) - Elems(stack), items, 0
  {
    if items != [] {
      assert items decreases to items[0];
      ExpandCloses(root, items[0], stack);
      ExpandItemsCloses(root, items[1..], stack);
      var xs := ExpandItems(root, items, stack).value;
      assert xs[1..] == ExpandItems(root, items[1..], stack).value;
    }
  }

  /** The inlined schema has no definitions key at any depth, and no reference unless one
      names a string. */
  lemma InlineCloses(root: Fields)
    requires InlineRefs(root).Ok?
    ensures DefsFree(Obj(InlineRefs(root).value))
    ensures NoStringTargets(Obj(root)) ==> RefsIn(Obj(InlineRefs(root).value)) == {}
  {
    ExpandDropsDefs(Obj(root), Obj(root), []);
    if NoStringTargets(Obj(root)) {
      ExpandCloses(Obj(root), Obj(root), []);
    }
  }

  /** A value with no reference and no definitions key is left as it is. */
  lemma {:induction false} ExpandFixed(root: Json, v: Json, stack: seq<string>)
    requires RefsIn(v) == {} && DefsFree(v)
    ensures Expand(root, v, stack) == Ok(v)
    decreases v, 0
  {
    match v
    case Obj(fs) => ExpandFieldsFixed(root, fs, stack);
    case Arr(items) => ExpandItemsFixed(root, items, stack);
    case _ =>
  }

  lemma {:induction false} ExpandFieldsFixed(root: Json, fs: Fields, stack: seq<string>)
    requires RefsInFields(fs) == {} && DefsFreeFields(fs)
    ensures ExpandFields(root, fs, stack) == Ok(fs)
    decreases fs, 0
  {
    if fs.Field? {
      ExpandFixed(root, fs.val, stack);
      ExpandFieldsFixed(root, fs.rest, stack);
    }
  }

  lemma {:induction false} ExpandItemsFixed(root: Json, items: seq<Json>, stack: seq<string>)
    requires RefsInItems(items) == {} && DefsFree(Arr(items))
    ensures ExpandItems(root, items, stack) == Ok(items)
    decreases items, 0
  {
    if items != [] {
      assert items decreases to items[0];
      ExpandFixed(root, items[0], stack);
      assert forall i | 0 <= i < |items[1..]| :: items[1..][i] == items[i + 1];
      ExpandItemsFixed(root, items[1..], stack);
      assert [items[0]] + items[1..] == items;
    }
  }

  /** Inlining an inlined schema changes nothing. */
  lemma InlineIdempotent(root: Fields)
    requires NoStringTargets(Obj(root)) && InlineRefs(root).Ok?
    ensures InlineRefs(InlineRefs(root).value) == InlineRefs(root)
  {
    var inlined := InlineRefs(root).value;
    InlineCloses(root);
    ExpandFixed(Obj(inlined), Obj(inlined), []);
  }

  // ---- keys stay distinct ----

  lemma {:induction false} DescendUnique(j: Json, parts: seq<string>)
    requires UniqueKeys(j) && Descend(j, parts).Some?
    ensures UniqueKeys(Descend(j, parts).value)
    decreases |parts|
  {
    if parts != [] {
      UniqueGet(j.fields, parts[0]);
      DescendUnique(Get(j.fields, parts[0]).value, parts[1..]);
    }
  }

  lemma {:induction false} ExpandUnique(root: Json, v: Json, stack: seq<string>)
    requires UniqueKeys(root) && UniqueKeys(v) && RefsIn(v) <= RefsIn(root) && Expand(root, v, stack).Ok?
    ensures UniqueKeys(Expand(root, v, stack).value)
    decreases RefsIn(root) - Elems(stack), v, 1
  {
    match v
    case Obj(fs) =>
      if Reference(fs).Some? {
        var r := Reference(fs).value;
        NamedRefs(root, r);
        assert r in RefsIn(root) - Elems(stack) && r !in RefsIn(root) - Elems(stack + [r]);
        DescendUnique(root, Steps(r));
        ExpandUnique(root, Named(root, r).value, stack + [r]);
      } else {
        ExpandFieldsUnique(root, fs, stack);
      }
    case Arr(items) => ExpandItemsUnique(root, items, stack);
    case _ =>
  }

  lemma {:induction false} ExpandFieldsUnique(root: Json, fs: Fields, stack: seq<string>)
    requires UniqueKeys(root) && UniqueFields(fs) && RefsInFields(fs) <= RefsIn(root)
              && ExpandFields(root, fs, stack).Ok?
    ensures UniqueFields(ExpandFields(root, fs, stack).value)
    decreases RefsIn(root) - Elems(stack), fs, 0
  {
    if fs.Field? {
      ExpandFieldsUnique(root, fs.rest, stack);
      if !IsDefs(fs.key) {
        ExpandUnique(root, fs.val, stack);
        ExpandFieldsGet(root, fs.rest, stack, fs.key);
      }
    }
  }

  lemma {:induction false} ExpandItemsUnique(root: Json, items: seq<Json>, stack: seq<string>)
    requires UniqueKeys(root) && UniqueKeys(Arr(items))
    requires RefsInItems(items) <= RefsIn(root) && ExpandItems(root, items, stack).Ok?
    ensures UniqueKeys(Arr(ExpandItems(root, items, stack).value))
    decreases RefsIn(root) - Elems(stack), items, 0
  {
    if items != [] {
      assert items decreases to items[0];
      ExpandUnique(root, items[0], stack);
      assert forall i | 0 <= i < |items[1..]| :: items[1..][i] == items[i + 1];
      ExpandItemsUnique(root, items[1..], stack);
      var xs, rest := ExpandItems(root, items, stack).value, ExpandItems(root, items[1..], stack).value;
      assert forall i | 1 <= i < |xs| :: xs[i] == rest[i - 1];
    }
  }

  /** With distinct keys, what every key holds is all there is. */
  lemma {:induction false} RefsByKey(fs: Fields)
    requires UniqueFields(fs) && forall k | Has(fs, k) :: RefsIn(Get(fs, k).value) == {}
    ensures RefsInFields(fs) == {}
  {
    if fs.Field? {
      assert Get(fs, fs.key) == Some(fs.val);
      forall k | Has(fs.rest, k) ensures RefsIn(Get(fs.rest, k).value) == {} {
        assert Get(fs, k) == Get(fs.rest, k);
      }
      RefsByKey(fs.rest);
    }
  }

  lemma {:induction false} RefsByItem(items: seq<Json>)
    requires forall i | 0 <= i < |items| :: RefsIn(items[i]) == {}
    ensures RefsInItems(items) == {}
  {
    if items != [] {
      assert forall i | 0 <= i < |items[1..]| :: items[1..][i] == items[i + 1];
      RefsByItem(items[1..]);
    }
  }
}
