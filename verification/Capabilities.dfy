/** The model capability preflight (providers/openrouter_capabilities.py). */
module Capabilities {
  import opened Json

  /** A catalog item: where its alias points (`""` for a missing slug), and its details link. */
  datatype Entry = Entry(id: string, alias: Option<string>, details: string)

  type Catalog = map<string, Entry>

  datatype Endpoint = NotAnObject | Endpoint(status: Option<int>, parameters: Option<seq<string>>)

  /** What the details link answers: an exception, no endpoint list, or the list. */
  datatype Details = Raises | Invalid | Endpoints(list: seq<Endpoint>)

  /** The metadata of one client. `models` is `None` when the catalog cannot be read. */
  datatype Metadata = Metadata(models: Option<seq<Option<Entry>>>, details: string -> Details)

  datatype Status = Compatible | Incompatible | Unknown

  datatype Result = Result(requested: string, resolved: Option<string>, status: Status, reason: string,
                           endpoints: nat, compatible: nat)

  const REQUIRED: seq<string> := ["response_format", "structured_outputs"]

  /** `_endpoint_is_compatible`. */
  predicate IsCompatible(e: Endpoint) {
    && e.Endpoint? && (e.status == None || e.status == Some(0))
    && e.parameters.Some? && forall p | p in REQUIRED :: p in e.parameters.value
  }

  function CompatibleOnes(list: seq<Endpoint>): (r: seq<Endpoint>)
    ensures |r| <= |list|
    ensures r != [] <==> exists e :: e in list && IsCompatible(e)
  {
    if list == [] then []
    else
      var rest := CompatibleOnes(list[1..]);
      assert forall e :: e in list <==> e == list[0] || e in list[1..];
      if IsCompatible(list[0]) then [list[0]] + rest else rest
  }

  // ---- the catalog ----

  /** `_catalog`: items by ID, a later one replacing an earlier one. */
  function CatalogOf(items: seq<Option<Entry>>): (c: Catalog)
    ensures forall id | id in c :: c[id].id == id
  {
    if items == [] then map[]
    else
      var before := CatalogOf(items[..|items| - 1]);
      match items[|items| - 1]
      case None => before
      case Some(e) => before[e.id := e]
  }

  /** An entry is the last item with its ID. */
  lemma {:induction false} LastItemWins(items: seq<Option<Entry>>, id: string)
    ensures id in CatalogOf(items) <==> exists k :: 0 <= k < |items| && items[k].Some? && items[k].value.id == id
    ensures id in CatalogOf(items) ==>
              exists k :: 0 <= k < |items| && items[k] == Some(CatalogOf(items)[id])
                          && forall j | k < j < |items| && items[j].Some? :: items[j].value.id != id
  {
    if items != [] {
      var n := |items| - 1;
      LastItemWins(items[..n], id);
      if items[n].Some? && items[n].value.id == id {
        assert items[n] == Some(CatalogOf(items)[id]);
      } else if id in CatalogOf(items[..n]) {
        var k :| 0 <= k < n && items[..n][k] == Some(CatalogOf(items[..n])[id])
                 && forall j | k < j < n && items[..n][j].Some? :: items[..n][j].value.id != id;
        forall j | k < j < |items| && items[j].Some? ensures items[j].value.id != id {
          assert j < n ==> items[..n][j] == items[j];
        }
        assert items[k] == Some(CatalogOf(items)[id]);
      } else {
        forall k | 0 <= k < |items| && items[k].Some? ensures items[k].value.id != id {
          assert k < n ==> items[..n][k] == items[k];
        }
      }
    }
  }

  // ---- the alias chain ----

  function Last(path: seq<string>): string
    requires path != []
  {
    path[|path| - 1]
  }

  predicate Hop(c: Catalog, from: string, to: string) {
    from in c && to in c && c[from].alias == Some(to) && to != ""
  }

  /** A list of catalog IDs, each the alias target of the one before, none twice. */
  ghost predicate IsChain(c: Catalog, path: seq<string>) {
    && path != [] && path[0] in c
    && (forall i | 1 <= i < |path| :: Hop(c, path[i - 1], path[i]))
    && (forall i, j | 0 <= i < j < |path| :: path[i] != path[j])
  }

  lemma StartsChain(c: Catalog, id: string)
    requires id in c
    ensures IsChain(c, [id])
  {
  }

  lemma ChainGrows(c: Catalog, path: seq<string>, target: string)
    requires IsChain(c, path) && Hop(c, Last(path), target) && target !in path
    ensures IsChain(c, path + [target])
  {
    var longer := path + [target];
    forall i | 1 <= i < |longer| ensures Hop(c, longer[i - 1], longer[i]) {
      assert i < |path| ==> Hop(c, path[i - 1], path[i]);
    }
  }

  /** How a chain stops. */
  datatype End = Model(id: string) | BadTarget(id: string) | NoTarget(id: string)

  ghost predicate EndsIn(c: Catalog, path: seq<string>, end: End)
  {
    && path != [] && Last(path) in c
    && match end
       case Model(id) => id == Last(path) && c[id].alias == None
       case BadTarget(id) => c[Last(path)].alias == Some(id) && (id == "" || id in path)
       case NoTarget(id) => c[Last(path)].alias == Some(id) && id != "" && id !in path && id !in c
  }

  /** Chains from one ID are prefixes of one another: an alias has one target. */
  lemma ChainsAgree(c: Catalog, p: seq<string>, q: seq<string>, k: nat)
    requires IsChain(c, p) && IsChain(c, q) && p[0] == q[0] && k < |p| && k < |q|
    ensures p[k] == q[k]
  {
    if k > 0 {
      ChainsAgree(c, p, q, k - 1);
      assert Hop(c, p[k - 1], p[k]) && Hop(c, q[k - 1], q[k]);
    }
  }

  /** No ID has two chains that stop, so how its chain stops is determined. */
  lemma OneEnd(c: Catalog, p: seq<string>, e: End, q: seq<string>, f: End)
    requires IsChain(c, p) && IsChain(c, q) && p[0] == q[0] && EndsIn(c, p, e) && EndsIn(c, q, f)
    ensures e == f
  {
    if |p| == |q| {
      ChainsAgree(c, p, q, |p| - 1);
      forall k | 0 <= k < |p| ensures p[k] == q[k] {
        ChainsAgree(c, p, q, k);
      }
      assert p == q;
    } else if |p| < |q| {
      LongerGoesOn(c, p, e, q);
    } else {
      LongerGoesOn(c, q, f, p);
    }
  }

  lemma LongerGoesOn(c: Catalog, p: seq<string>, e: End, q: seq<string>)
    requires IsChain(c, p) && IsChain(c, q) && p[0] == q[0] && |p| < |q|
    ensures !EndsIn(c, p, e)
  {
    var n := |p| - 1;
    ChainsAgree(c, p, q, n);
    assert Hop(c, q[n + 1 - 1], q[n + 1]);
    forall k | 0 <= k < |p| ensures p[k] != q[n + 1] {
      ChainsAgree(c, p, q, k);
    }
  }

  /** How the chain of a model stops. */
  ghost predicate StopsAt(c: Catalog, requested: string, end: End) {
    exists path :: IsChain(c, path) && path[0] == requested && EndsIn(c, path, end)
  }

  /** The alias loop of `_inspect_uncached`. It always stops, since every round sees a catalog
      key it has not seen before. */
  method FollowAliases(c: Catalog, requested: string) returns (end: End)
    requires requested in c && forall id | id in c :: c[id].id == id
    ensures StopsAt(c, requested, end)
  {
    hide IsChain;
    StartsChain(c, requested);
    var resolved := c[requested];
    var seen := {requested};
    ghost var path := [requested];
    while resolved.alias.Some?
      invariant path != [] && IsChain(c, path) && path[0] == requested
      invariant Last(path) in c && resolved == c[Last(path)]
      invariant forall id :: id in seen <==> id in path
      invariant seen <= c.Keys
      decreases |c.Keys - seen|
    {
      var target := resolved.alias.value;
      if target == "" || target in seen {
        return BadTarget(target);
      }
      if target !in c {
        return NoTarget(target);
      }
      ghost var before := seen;
      seen := seen + {target};
      assert c.Keys - seen == (c.Keys - before) - {target};
      ChainGrows(c, path, target);
      path := path + [target];
      resolved := c[target];
    }
    end := Model(resolved.id);
  }

  // ---- what the preflight means ----

  /** What the preflight says about a model whose chain stops like this. */
  function ResultOf(m: Metadata, c: Catalog, requested: string, end: End): Result {
    match end
    case BadTarget(id) => Result(requested, if id == "" then None else Some(id), Unknown, "ALIAS_TARGET_INVALID", 0, 0)
    case NoTarget(id) => Result(requested, Some(id), Unknown, "ALIAS_TARGET_NOT_FOUND", 0, 0)
    case Model(id) =>
      if id !in c || c[id].details == "" then
        Result(requested, Some(id), Unknown, "ENDPOINT_METADATA_LINK_MISSING", 0, 0)
      else
        match m.details(c[id].details)
        case Raises => Result(requested, None, Unknown, "METADATA_UNAVAILABLE", 0, 0)
        case Invalid => Result(requested, Some(id), Unknown, "ENDPOINT_METADATA_INVALID", 0, 0)
        case Endpoints(list) =>
          var n := |CompatibleOnes(list)|;
          if n > 0 then Result(requested, Some(id), Compatible, "REQUIRED_PARAMETERS_SUPPORTED", |list|, n)
          else Result(requested, Some(id), Incompatible,
                      if list == [] then "NO_ENDPOINTS" else "REQUIRED_PARAMETERS_UNSUPPORTED", |list|, 0)
  }

  /** The answer of the preflight, by how the chain of the requested model stops. */
  ghost predicate Answers(m: Metadata, requested: string, r: Result) {
    match m.models
    case None => r == Result(requested, None, Unknown, "METADATA_UNAVAILABLE", 0, 0)
    case Some(items) =>
      var c := CatalogOf(items);
      if requested !in c then r == Result(requested, None, Incompatible, "MODEL_NOT_FOUND", 0, 0)
      else exists end :: StopsAt(c, requested, end) && r == ResultOf(m, c, requested, end)
  }

  /** The metadata admits one answer for a model: what is cached is what would be found again. */
  lemma OneAnswer(m: Metadata, requested: string, r: Result, s: Result)
    requires Answers(m, requested, r) && Answers(m, requested, s)
    ensures r == s
  {
    if m.models.Some? && requested in CatalogOf(m.models.value) {
      var c := CatalogOf(m.models.value);
      var e :| StopsAt(c, requested, e) && r == ResultOf(m, c, requested, e);
      var f :| StopsAt(c, requested, f) && s == ResultOf(m, c, requested, f);
      StopsOnce(c, requested, e, f);
    }
  }

  /** A model the preflight lets through has a chain of known aliases, without a cycle, to an
      entry with a details link whose endpoint list names an endpoint that supports both
      required parameters; and every such model is let through. */
  lemma CompatibleIff(m: Metadata, requested: string, r: Result)
    requires Answers(m, requested, r)
    ensures r.status == Compatible <==>
              && m.models.Some?
              && var c := CatalogOf(m.models.value);
              && exists id :: StopsAt(c, requested, Model(id)) && id in c && c[id].details != ""
                              && m.details(c[id].details).Endpoints?
                              && exists e :: e in m.details(c[id].details).list && IsCompatible(e)
  {
    if m.models.Some? && requested in CatalogOf(m.models.value) {
      var c := CatalogOf(m.models.value);
      var end :| StopsAt(c, requested, end) && r == ResultOf(m, c, requested, end);
      forall other | StopsAt(c, requested, other) ensures other == end {
        StopsOnce(c, requested, end, other);
      }
    }
  }

  lemma StopsOnce(c: Catalog, requested: string, e: End, f: End)
    requires StopsAt(c, requested, e) && StopsAt(c, requested, f)
    ensures e == f
  {
    var p :| IsChain(c, p) && p[0] == requested && EndsIn(c, p, e);
    var q :| IsChain(c, q) && q[0] == requested && EndsIn(c, q, f);
    OneEnd(c, p, e, q, f);
  }

  // ---- the client ----

  /** `_inspect_uncached`, with the `except` of `inspect` around it. */
  method InspectUncached(m: Metadata, requested: string) returns (r: Result)
    ensures Answers(m, requested, r)
  {
    if m.models == None {
      return Result(requested, None, Unknown, "METADATA_UNAVAILABLE", 0, 0);
    }
    var catalog := CatalogOf(m.models.value);
    if requested !in catalog {
      return Result(requested, None, Incompatible, "MODEL_NOT_FOUND", 0, 0);
    }
    var end := FollowAliases(catalog, requested);
    r := ResultOf(m, catalog, requested, end);
  }

  class Client {
    const metadata: Metadata
    var cache: map<string, Result>

    ghost predicate Valid()
      reads this
    {
      forall id | id in cache :: id != "" && Answers(metadata, id, cache[id])
    }

    constructor (metadata: Metadata)
      ensures Valid() && this.metadata == metadata
    {
      this.metadata := metadata;
      cache := map[];
    }

    /** `inspect` of a stripped ID: cached or not, the answer is the only one the metadata admits. */
    method Inspect(requested: string) returns (r: Result)
      requires Valid()
      modifies this
      ensures Valid()
      ensures if requested == "" then r.status == Incompatible && cache == old(cache)
              else Answers(metadata, requested, r) && cache == old(cache)[requested := r]
      ensures forall s :: requested != "" && Answers(metadata, requested, s) ==> r == s
    {
      if requested == "" {
        return Result(requested, None, Incompatible, "MODEL_ID_MISSING", 0, 0);
      }
      if requested in cache {
        assert Answers(metadata, requested, cache[requested]);
        forall s | Answers(metadata, requested, s) ensures cache[requested] == s {
          OneAnswer(metadata, requested, cache[requested], s);
        }
        assert cache == cache[requested := cache[requested]];
        return cache[requested];
      }
      r := InspectUncached(metadata, requested);
      forall s | Answers(metadata, requested, s) ensures r == s {
        OneAnswer(metadata, requested, r, s);
      }
      cache := cache[requested := r];
    }
  }
}
