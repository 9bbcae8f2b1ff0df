/** Structured references in saved payloads: which ID fields are checked, what the walk
    reports, and the view that drops unknown ones (conclusion/validator.py). */
module References {
  import opened Collections
  import opened Json
  import opened PathText

  // ---- which fields hold references ----

  const CLAIM := "claim"
  const EVIDENCE := "evidence"
  const ANALYSIS := "analysis"
  const SOURCE := "source"
  const CANDIDATE := "candidate"
  const STAKEHOLDER := "stakeholder"
  const PROBLEM := "problem"

  /** The field is named after the kind, alone or behind a prefix, in singular or plural. */
  predicate NamedAfter(field: string, kind: string) {
    || field == kind + "_id" || field == kind + "_ids"
    || EndsWith(field, "_" + kind + "_id") || EndsWith(field, "_" + kind + "_ids")
  }

  function FirstKind(field: string, kinds: seq<string>): Option<string> {
    if kinds == [] then None
    else if NamedAfter(field, kinds[0]) then Some(kinds[0])
    else FirstKind(field, kinds[1..])
  }

  const KINDS: seq<string> := [CLAIM, EVIDENCE, ANALYSIS, SOURCE, CANDIDATE, STAKEHOLDER, PROBLEM]

  /** `_reference_kind`. */
  function ReferenceKind(field: string): Option<string> {
    match FirstKind(field, KINDS)
    case Some(kind) => Some(kind)
    case None => if field == "viable_candidates" then Some(CANDIDATE) else None
  }

  function LastThree(s: string): string
    requires |s| >= 3
  {
    s[|s| - 3..]
  }

  /** The field without its `_id` or `_ids` ending. */
  function Stem(field: string): string
    requires |field| >= 4
  {
    if field[|field| - 1] == 's' then field[..|field| - 4] else field[..|field| - 3]
  }

  lemma EndingOf(field: string, kind: string, prefix: string)
    requires |kind| >= 3 && (field == prefix + kind + "_id" || field == prefix + kind + "_ids")
    ensures |field| >= 4 && |Stem(field)| >= 3 && LastThree(Stem(field)) == LastThree(kind)
    ensures field[|field| - 4] == '_' || field[|field| - 3] == '_'
  {
    assert Stem(field) == prefix + kind;
  }

  lemma NamedAfterEnding(field: string, kind: string)
    requires NamedAfter(field, kind) && |kind| >= 3
    ensures |field| >= 4 && |Stem(field)| >= 3 && LastThree(Stem(field)) == LastThree(kind)
    ensures field[|field| - 4] == '_' || field[|field| - 3] == '_'
  {
    if EndsWith(field, "_" + kind + "_id") {
      var prefix := field[..|field| - |kind| - 4] + "_";
      assert field == prefix + kind + "_id";
      EndingOf(field, kind, prefix);
    } else if EndsWith(field, "_" + kind + "_ids") {
      var prefix := field[..|field| - |kind| - 5] + "_";
      assert field == prefix + kind + "_ids";
      EndingOf(field, kind, prefix);
    } else {
      assert "" + kind + "_id" == kind + "_id" && "" + kind + "_ids" == kind + "_ids";
      EndingOf(field, kind, "");
    }
  }

  /** The last three letters tell the seven kinds apart. */
  lemma KindsDiffer(a: nat, b: nat)
    requires a < b < |KINDS|
    ensures |KINDS[a]| >= 3 && |KINDS[b]| >= 3 && LastThree(KINDS[a]) != LastThree(KINDS[b])
  {
    assert LastThree(CLAIM) == "aim" && LastThree(EVIDENCE) == "nce" && LastThree(ANALYSIS) == "sis"
        && LastThree(SOURCE) == "rce" && LastThree(CANDIDATE) == "ate" && LastThree(STAKEHOLDER) == "der"
        && LastThree(PROBLEM) == "lem";
  }

  lemma {:induction false} FirstKindIs(field: string, kinds: seq<string>, i: nat)
    requires i < |kinds| && NamedAfter(field, kinds[i])
    requires forall j | 0 <= j < i :: !NamedAfter(field, kinds[j])
    ensures FirstKind(field, kinds) == Some(kinds[i])
  {
    if i > 0 {
      assert kinds[1..][i - 1] == kinds[i];
      assert forall j | 0 <= j < i - 1 :: kinds[1..][j] == kinds[j + 1];
      FirstKindIs(field, kinds[1..], i - 1);
    }
  }

  lemma {:induction false} FirstKindFrom(field: string, kinds: seq<string>)
    ensures FirstKind(field, kinds).Some? ==>
              FirstKind(field, kinds).value in kinds && NamedAfter(field, FirstKind(field, kinds).value)
  {
    if kinds != [] {
      FirstKindFrom(field, kinds[1..]);
    }
  }

  lemma ViableIsNotNamed(kind: string)
    requires |kind| >= 3
    ensures !NamedAfter("viable_candidates", kind)
  {
    var field := "viable_candidates";
    assert field[|field| - 4] == 'a' && field[|field| - 3] == 't';
    if NamedAfter(field, kind) {
      NamedAfterEnding(field, kind);
    }
  }

  /** The order of the tests does not matter: a field has a kind exactly when it is named after
      it, and no field is named after two. */
  lemma ReferenceKindIff(field: string, i: nat)
    requires i < |KINDS|
    ensures ReferenceKind(field) == Some(KINDS[i])
            <==> NamedAfter(field, KINDS[i]) || (KINDS[i] == CANDIDATE && field == "viable_candidates")
  {
    KindLengths();
    if NamedAfter(field, KINDS[i]) {
      NamedAfterEnding(field, KINDS[i]);
      forall j | 0 <= j < i ensures !NamedAfter(field, KINDS[j]) {
        KindsDiffer(j, i);
        if NamedAfter(field, KINDS[j]) {
          NamedAfterEnding(field, KINDS[j]);
        }
      }
      FirstKindIs(field, KINDS, i);
    } else {
      FirstKindFrom(field, KINDS);
      if field == "viable_candidates" && FirstKind(field, KINDS).Some? {
        ViableIsNotNamed(FirstKind(field, KINDS).value);
      }
    }
  }

  lemma KindLengths()
    ensures forall k | k in KINDS :: |k| >= 3
  {
  }

  // ---- the walk ----

  /** How fields are classified and which IDs each checked kind may hold. A kind without an
      entry is not checked. */
  datatype Rules = Rules(kindOf: string -> Option<string>, allow: map<string, set<string>>)

  datatype Violation = Violation(kind: string, id: string, at: Path)

  /** The field holds references of a kind that is checked. */
  predicate IsChecked(rules: Rules, field: string) {
    rules.kindOf(field).Some? && rules.kindOf(field).value in rules.allow
  }

  /** The item is a reference of the field's kind to an ID that is not known. */
  predicate Bad(rules: Rules, field: string, item: Json) {
    IsChecked(rules, field)
    && item.Str? && item.s != "" && item.s !in rules.allow[rules.kindOf(field).value]
  }

  function Find(rules: Rules, field: string, item: Json, at: Path): seq<Violation> {
    if Bad(rules, field, item) then [Violation(rules.kindOf(field).value, item.s, at)] else []
  }

  function FindInItems(rules: Rules, field: string, items: seq<Json>, at: Path, index: nat := 0): seq<Violation>
    requires index <= |items|
    decreases |items| - index
  {
    if index == |items| then []
    else Find(rules, field, items[index], at + [Index(index)]) + FindInItems(rules, field, items, at, index + 1)
  }

  /** The references a field holds itself. */
  function FindInField(rules: Rules, field: string, child: Json, at: Path): seq<Violation> {
    if child.Arr? then FindInItems(rules, field, child.items, at) else Find(rules, field, child, at)
  }

  /** The walk of `unknown_reference_ids`. */
  function Unknown(rules: Rules, j: Json, at: Path): seq<Violation>
    decreases j, 0
  {
    match j
    case Obj(fs) => UnknownInFields(rules, fs, at)
    case Arr(items) => UnknownInItems(rules, items, at)
    case _ => []
  }

  function UnknownInFields(rules: Rules, fs: Fields, at: Path): seq<Violation>
    decreases fs, 0
  {
    match fs
    case Empty => []
    case Field(k, v, rest) =>
      FindInField(rules, k, v, at + [Key(k)]) + Unknown(rules, v, at + [Key(k)]) + UnknownInFields(rules, rest, at)
  }

  function UnknownInItems(rules: Rules, items: seq<Json>, at: Path, index: nat := 0): seq<Violation>
    requires index <= |items|
    decreases items, |items| - index
  {
    if index == |items| then []
    else
      assert items decreases to items[index];
      Unknown(rules, items[index], at + [Index(index)]) + UnknownInItems(rules, items, at, index + 1)
  }

  // ---- the filtered view ----

  /** What the walk of `canonical_decision_context_view` leaves: unknown list items are
      filtered out, fields that hold one unknown reference are dropped. */
  function Clean(rules: Rules, j: Json): Json
    decreases j, 0
  {
    match j
    case Obj(fs) => Obj(CleanFields(rules, fs))
    case Arr(items) => Arr(CleanItems(rules, items))
    case _ => j
  }

  function CleanFields(rules: Rules, fs: Fields): Fields
    decreases fs, 0
  {
    match fs
    case Empty => Empty
    case Field(k, v, rest) =>
      if v.Arr? then Field(k, Arr(CleanKept(rules, k, v.items)), CleanFields(rules, rest))
      else if Bad(rules, k, v) then CleanFields(rules, rest)
      else Field(k, Clean(rules, v), CleanFields(rules, rest))
  }

  function CleanKept(rules: Rules, field: string, items: seq<Json>): (r: seq<Json>)
    ensures forall x | x in r :: !Bad(rules, field, x)
    decreases items, 0
  {
    if items == [] then []
    else
      assert items decreases to items[0];
      (if Bad(rules, field, items[0]) then [] else [Clean(rules, items[0])]) + CleanKept(rules, field, items[1..])
  }

  function CleanItems(rules: Rules, items: seq<Json>): (r: seq<Json>)
    ensures |r| == |items|
    decreases items, 0
  {
    if items == [] then []
    else
      assert items decreases to items[0];
      [Clean(rules, items[0])] + CleanItems(rules, items[1..])
  }

  /** What the same walk reports as removed. It descends into the filtered list, so items
      after a removed one are reported under their new positions. */
  function Removed(rules: Rules, j: Json, at: Path): seq<Violation>
    decreases j, 0
  {
    match j
    case Obj(fs) => RemovedInFields(rules, fs, at)
    case Arr(items) => RemovedInItems(rules, items, at)
    case _ => []
  }

  function RemovedInFields(rules: Rules, fs: Fields, at: Path): seq<Violation>
    decreases fs, 0
  {
    match fs
    case Empty => []
    case Field(k, v, rest) =>
      (if v.Arr? then FindInItems(rules, k, v.items, at + [Key(k)]) + RemovedInKept(rules, k, v.items, at + [Key(k)])
       else if Bad(rules, k, v) then Find(rules, k, v, at + [Key(k)])
       else Removed(rules, v, at + [Key(k)]))
      + RemovedInFields(rules, rest, at)
  }

  /** The kept items of a filtered list, counted from `kept`. */
  function RemovedInKept(rules: Rules, field: string, items: seq<Json>, at: Path, kept: nat := 0): seq<Violation>
    decreases items, 0
  {
    if items == [] then []
    else if Bad(rules, field, items[0]) then RemovedInKept(rules, field, items[1..], at, kept)
    else
      assert items decreases to items[0];
      Removed(rules, items[0], at + [Index(kept)]) + RemovedInKept(rules, field, items[1..], at, kept + 1)
  }

  function RemovedInItems(rules: Rules, items: seq<Json>, at: Path, index: nat := 0): seq<Violation>
    requires index <= |items|
    decreases items, |items| - index
  {
    if index == |items| then []
    else
      assert items decreases to items[index];
      Removed(rules, items[index], at + [Index(index)]) + RemovedInItems(rules, items, at, index + 1)
  }

  // ---- nothing unknown remains ----

  lemma {:induction false} NothingFound(rules: Rules, field: string, items: seq<Json>, at: Path, index: nat)
    requires index <= |items| && forall x | x in items :: !Bad(rules, field, x)
    ensures FindInItems(rules, field, items, at, index) == []
    decreases |items| - index
  {
    if index < |items| {
      NothingFound(rules, field, items, at, index + 1);
    }
  }

  /** Whatever the input, the filtered value has no unknown reference. */
  lemma {:induction false} CleanHasNoUnknown(rules: Rules, j: Json, at: Path)
    ensures Unknown(rules, Clean(rules, j), at) == []
    decreases j, 1
  {
    match j
    case Obj(fs) => CleanFieldsHaveNoUnknown(rules, fs, at);
    case Arr(items) =>
      CleanItemsAre(rules, items);
      AllClean(rules, items, CleanItems(rules, items), at, 0);
    case _ =>
  }

  lemma {:induction false} CleanFieldsHaveNoUnknown(rules: Rules, fs: Fields, at: Path)
    ensures UnknownInFields(rules, CleanFields(rules, fs), at) == []
    decreases fs, 1
  {
    if fs.Field? {
      CleanFieldsHaveNoUnknown(rules, fs.rest, at);
      var here := at + [Key(fs.key)];
      if fs.val.Arr? {
        var kept := CleanKept(rules, fs.key, fs.val.items);
        NothingFound(rules, fs.key, kept, here, 0);
        KeptAre(rules, fs.key, fs.val.items);
        AllClean(rules, fs.val.items, kept, here, 0);
      } else if !Bad(rules, fs.key, fs.val) {
        CleanHasNoUnknown(rules, fs.val, here);
        CleanKeepsBad(rules, fs.key, fs.val);
      }
    }
  }

  lemma CleanKeepsBad(rules: Rules, field: string, v: Json)
    requires !v.Arr? && !Bad(rules, field, v)
    ensures Find(rules, field, Clean(rules, v), []) == [] && !Clean(rules, v).Arr?
    ensures !Bad(rules, field, Clean(rules, v))
  {
  }

  /** Every element is the clean form of some element of `items`. */
  ghost predicate CleanOf(rules: Rules, items: seq<Json>, xs: seq<Json>) {
    forall x | x in xs :: exists i :: 0 <= i < |items| && x == Clean(rules, items[i])
  }

  lemma {:induction false} KeptAre(rules: Rules, field: string, items: seq<Json>)
    ensures CleanOf(rules, items, CleanKept(rules, field, items))
  {
    if items != [] {
      KeptAre(rules, field, items[1..]);
      forall x | x in CleanKept(rules, field, items)
          ensures exists i :: 0 <= i < |items| && x == Clean(rules, items[i]) {
        if x in CleanKept(rules, field, items[1..]) {
          var i :| 0 <= i < |items[1..]| && x == Clean(rules, items[1..][i]);
          assert items[1..][i] == items[i + 1];
        } else {
          assert x == Clean(rules, items[0]);
        }
      }
    }
  }

  lemma {:induction false} CleanItemsAre(rules: Rules, items: seq<Json>)
    ensures CleanOf(rules, items, CleanItems(rules, items))
    ensures forall i | 0 <= i < |items| :: CleanItems(rules, items)[i] == Clean(rules, items[i])
  {
    if items != [] {
      CleanItemsAre(rules, items[1..]);
      forall i | 0 <= i < |items| ensures CleanItems(rules, items)[i] == Clean(rules, items[i]) {
        if i > 0 {
          assert items[1..][i - 1] == items[i];
        }
      }
    }
  }

  lemma {:induction false} AllClean(rules: Rules, items: seq<Json>, xs: seq<Json>, at: Path, index: nat)
    requires index <= |xs| && CleanOf(rules, items, xs)
    ensures UnknownInItems(rules, xs, at, index) == []
    decreases items, 0, |xs| - index
  {
    if index < |xs| {
      assert xs[index] in xs;
      var i :| 0 <= i < |items| && xs[index] == Clean(rules, items[i]);
      assert items decreases to items[i];
      CleanHasNoUnknown(rules, items[i], at + [Index(index)]);
      AllClean(rules, items, xs, at, index + 1);
    }
  }

  // ---- a value with nothing unknown is left alone ----

  lemma {:induction false} CleanFixed(rules: Rules, j: Json, at: Path)
    requires Unknown(rules, j, at) == []
    ensures Clean(rules, j) == j
    decreases j, 1
  {
    match j
    case Obj(fs) => CleanFieldsFixed(rules, fs, at);
    case Arr(items) =>
      ItemsFixed(rules, items, at);
      CleanItemsAre(rules, items);
      assert CleanItems(rules, items) == items;
    case _ =>
  }

  lemma {:induction false} CleanFieldsFixed(rules: Rules, fs: Fields, at: Path)
    requires UnknownInFields(rules, fs, at) == []
    ensures CleanFields(rules, fs) == fs
    decreases fs, 1
  {
    if fs.Field? {
      var here := at + [Key(fs.key)];
      CleanFieldsFixed(rules, fs.rest, at);
      if fs.val.Arr? {
        NothingBad(rules, fs.key, fs.val.items, here, 0);
        ItemsFixed(rules, fs.val.items, here);
        KeptFixed(rules, fs.key, fs.val.items);
      } else {
        CleanFixed(rules, fs.val, here);
      }
    }
  }

  lemma {:induction false} NothingBad(rules: Rules, field: string, items: seq<Json>, at: Path, index: nat)
    requires index <= |items| && FindInItems(rules, field, items, at, index) == []
    ensures forall i | index <= i < |items| :: !Bad(rules, field, items[i])
    decreases |items| - index
  {
    if index < |items| {
      NothingBad(rules, field, items, at, index + 1);
    }
  }

  lemma {:induction false} UnknownItemAt(rules: Rules, items: seq<Json>, at: Path, index: nat, i: nat)
    requires index <= i < |items| && UnknownInItems(rules, items, at, index) == []
    ensures Unknown(rules, items[i], at + [Index(i)]) == []
    decreases |items| - index
  {
    if index < i {
      UnknownItemAt(rules, items, at, index + 1, i);
    }
  }

  lemma {:induction false} ItemsFixed(rules: Rules, items: seq<Json>, at: Path)
    requires UnknownInItems(rules, items, at) == []
    ensures forall i | 0 <= i < |items| :: Clean(rules, items[i]) == items[i]
    decreases items, 0
  {
    forall i | 0 <= i < |items| ensures Clean(rules, items[i]) == items[i] {
      UnknownItemAt(rules, items, at, 0, i);
      assert items decreases to items[i];
      CleanFixed(rules, items[i], at + [Index(i)]);
    }
  }

  lemma {:induction false} KeptFixed(rules: Rules, field: string, items: seq<Json>)
    requires forall i | 0 <= i < |items| :: !Bad(rules, field, items[i]) && Clean(rules, items[i]) == items[i]
    ensures CleanKept(rules, field, items) == items
  {
    if items != [] {
      assert forall i | 0 <= i < |items[1..]| :: items[1..][i] == items[i + 1];
      KeptFixed(rules, field, items[1..]);
    }
  }

  /** Filtering twice is filtering once. */
  lemma CleanIdempotent(rules: Rules, j: Json)
    ensures Clean(rules, Clean(rules, j)) == Clean(rules, j)
  {
    CleanHasNoUnknown(rules, j, []);
    CleanFixed(rules, Clean(rules, j), []);
  }

  // ---- lists without structure ----

  predicate IsScalar(j: Json) {
    !j.Obj? && !j.Arr?
  }

  /** Lists under checked reference fields hold scalars only. */
  predicate ScalarLists(rules: Rules, j: Json)
    decreases j, 0
  {
    match j
    case Obj(fs) => ScalarListsIn(rules, fs)
    case Arr(items) => forall i | 0 <= i < |items| :: ScalarLists(rules, items[i])
    case _ => true
  }

  predicate ScalarListsIn(rules: Rules, fs: Fields)
    decreases fs, 0
  {
    match fs
    case Empty => true
    case Field(k, v, rest) =>
      && (IsChecked(rules, k) && v.Arr? ==> forall i | 0 <= i < |v.items| :: IsScalar(v.items[i]))
      && ScalarLists(rules, v) && ScalarListsIn(rules, rest)
  }

  // ---- what the view keeps of a field ----

  lemma {:induction false} CleanGet(rules: Rules, fs: Fields, key: string)
    requires UniqueFields(fs)
    ensures Get(CleanFields(rules, fs), key) ==
            (match Get(fs, key)
             case None => None
             case Some(v) =>
               if v.Arr? then Some(Arr(CleanKept(rules, key, v.items)))
               else if Bad(rules, key, v) then None
               else Some(Clean(rules, v)))
  {
    if fs.Field? {
      CleanGet(rules, fs.rest, key);
    }
  }

  // ---- leaving one kind unchecked ----

  function Without(vs: seq<Violation>, kind: string): seq<Violation> {
    if vs == [] then [] else (if vs[0].kind == kind then [] else [vs[0]]) + Without(vs[1..], kind)
  }

  lemma {:induction false} WithoutCat(a: seq<Violation>, b: seq<Violation>, kind: string)
    ensures Without(a + b, kind) == Without(a, kind) + Without(b, kind)
  {
    if a == [] {
      assert a + b == b;
    } else {
      assert (a + b)[1..] == a[1..] + b;
      WithoutCat(a[1..], b, kind);
    }
  }

  function Unchecked(rules: Rules, kind: string): Rules {
    Rules(rules.kindOf, rules.allow - {kind})
  }

  /** Not checking a kind reports the same as checking it and leaving its findings out. */
  lemma {:induction false} UncheckedKind(rules: Rules, kind: string, j: Json, at: Path)
    ensures Unknown(Unchecked(rules, kind), j, at) == Without(Unknown(rules, j, at), kind)
    decreases j, 0
  {
    match j
    case Obj(fs) => UncheckedFields(rules, kind, fs, at);
    case Arr(items) => UncheckedItems(rules, kind, items, at, 0);
    case _ =>
  }

  lemma {:induction false} UncheckedFields(rules: Rules, kind: string, fs: Fields, at: Path)
    ensures UnknownInFields(Unchecked(rules, kind), fs, at) == Without(UnknownInFields(rules, fs, at), kind)
    decreases fs, 0
  {
    if fs.Field? {
      var here := at + [Key(fs.key)];
      UncheckedKind(rules, kind, fs.val, here);
      UncheckedFields(rules, kind, fs.rest, at);
      UncheckedField(rules, kind, fs.key, fs.val, here);
      var a, b := FindInField(rules, fs.key, fs.val, here), Unknown(rules, fs.val, here);
      WithoutCat(a, b, kind);
      WithoutCat(a + b, UnknownInFields(rules, fs.rest, at), kind);
    }
  }

  lemma UncheckedFind(rules: Rules, kind: string, field: string, item: Json, at: Path)
    ensures Find(Unchecked(rules, kind), field, item, at) == Without(Find(rules, field, item, at), kind)
  {
    assert Without([], kind) == [];
  }

  lemma {:induction false} UncheckedList(rules: Rules, kind: string, field: string, items: seq<Json>, at: Path,
                                         index: nat)
    requires index <= |items|
    ensures FindInItems(Unchecked(rules, kind), field, items, at, index)
         == Without(FindInItems(rules, field, items, at, index), kind)
    decreases |items| - index
  {
    if index < |items| {
      UncheckedFind(rules, kind, field, items[index], at + [Index(index)]);
      UncheckedList(rules, kind, field, items, at, index + 1);
      WithoutCat(Find(rules, field, items[index], at + [Index(index)]),
          FindInItems(rules, field, items, at, index + 1), kind);
    }
  }

  lemma UncheckedField(rules: Rules, kind: string, field: string, child: Json, at: Path)
    ensures FindInField(Unchecked(rules, kind), field, child, at) == Without(FindInField(rules, field, child, at), kind)
  {
    if child.Arr? {
      UncheckedList(rules, kind, field, child.items, at, 0);
    } else {
      UncheckedFind(rules, kind, field, child, at);
    }
  }

  lemma {:induction false} UncheckedItems(rules: Rules, kind: string, items: seq<Json>, at: Path, index: nat)
    requires index <= |items|
    ensures UnknownInItems(Unchecked(rules, kind), items, at, index) ==
              Without(UnknownInItems(rules, items, at, index), kind)
    decreases items, 0, |items| - index
  {
    if index < |items| {
      assert items decreases to items[index];
      UncheckedKind(rules, kind, items[index], at + [Index(index)]);
      UncheckedItems(rules, kind, items, at, index + 1);
      WithoutCat(Unknown(rules, items[index], at + [Index(index)]), UnknownInItems(rules, items, at, index + 1), kind);
    }
  }

  lemma {:induction false} NoneBadKeepsAll(rules: Rules, field: string, items: seq<Json>)
    requires forall i | 0 <= i < |items| :: !Bad(rules, field, items[i])
    ensures CleanKept(rules, field, items) == CleanItems(rules, items)
  {
    if items != [] {
      assert forall i | 0 <= i < |items[1..]| :: items[1..][i] == items[i + 1];
      NoneBadKeepsAll(rules, field, items[1..]);
    }
  }

  // ---- each position is reported once ----

  predicate NoneTwice(vs: seq<Violation>) {
    forall a, b | 0 <= a < b < |vs| :: vs[a] != vs[b]
  }

  /** All reports lie at or below a position, at least `more` steps further. */
  predicate AllBelow(vs: seq<Violation>, at: Path, more: nat) {
    forall v | v in vs :: at <= v.at && |v.at| >= |at| + more
  }

  lemma NoneTwiceCat(a: seq<Violation>, b: seq<Violation>)
    requires NoneTwice(a) && NoneTwice(b) && forall v | v in a :: v !in b
    ensures NoneTwice(a + b)
  {
    forall i, k | 0 <= i < k < |a + b| ensures (a + b)[i] != (a + b)[k] {
      if i < |a| <= k {
        assert a[i] in a && b[k - |a|] in b;
      }
    }
  }

  lemma {:induction false} ListReportsOnce(rules: Rules, field: string, items: seq<Json>, at: Path, index: nat)
    requires index <= |items|
    ensures var vs := FindInItems(rules, field, items, at, index);
            NoneTwice(vs) && forall v | v in vs ::
                |v.at| == |at| + 1 && at <= v.at && v.at[|at|].Index? && index <= v.at[|at|].i
    decreases |items| - index
  {
    if index < |items| {
      ListReportsOnce(rules, field, items, at, index + 1);
      NoneTwiceCat(Find(rules, field, items[index], at + [Index(index)]),
          FindInItems(rules, field, items, at, index + 1));
    }
  }

  /** The check reports no position twice, and nothing outside the value it walks. */
  lemma {:induction false} ReportsOnce(rules: Rules, j: Json, at: Path)
    requires UniqueKeys(j)
    ensures NoneTwice(Unknown(rules, j, at)) && AllBelow(Unknown(rules, j, at), at, 1)
    ensures j.Arr? ==> AllBelow(Unknown(rules, j, at), at, 2)
    decreases j, 1
  {
    match j
    case Obj(fs) => FieldsReportOnce(rules, fs, at);
    case Arr(items) => ItemsReportOnce(rules, items, at, 0);
    case _ =>
  }

  lemma {:induction false} FieldsReportOnce(rules: Rules, fs: Fields, at: Path)
    requires UniqueFields(fs)
    ensures var vs := UnknownInFields(rules, fs, at);
            NoneTwice(vs) && AllBelow(vs, at, 1)
            && forall v | v in vs :: v.at[|at|].Key? && Has(fs, v.at[|at|].name)
    decreases fs, 0
  {
    if fs.Field? {
      var here := at + [Key(fs.key)];
      var own, below, others := FindInField(rules, fs.key, fs.val, here), Unknown(rules, fs.val, here),
          UnknownInFields(rules, fs.rest, at);
      ReportsOnce(rules, fs.val, here);
      FieldsReportOnce(rules, fs.rest, at);
      if fs.val.Arr? {
        ListReportsOnce(rules, fs.key, fs.val.items, here, 0);
      }
      assert AllBelow(own, here, 0);
      NoneTwiceCat(own, below);
      forall v: Violation | v in own + below ensures v.at[|at|] == Key(fs.key) && at <= v.at {
        assert v.at[..|here|] == here;
        assert v.at[|at|] == here[|at|];
        assert at == here[..|at|];
      }
      NoneTwiceCat(own + below, others);
    }
  }

  lemma {:induction false} ItemsReportOnce(rules: Rules, items: seq<Json>, at: Path, index: nat)
    requires index <= |items| && forall i | 0 <= i < |items| :: UniqueKeys(items[i])
    ensures var vs := UnknownInItems(rules, items, at, index);
            NoneTwice(vs) && AllBelow(vs, at, 2)
            && forall v | v in vs :: v.at[|at|].Index? && index <= v.at[|at|].i
    decreases items, 0, |items| - index
  {
    if index < |items| {
      var here := at + [Index(index)];
      var first, others := Unknown(rules, items[index], here), UnknownInItems(rules, items, at, index + 1);
      assert items decreases to items[index];
      ReportsOnce(rules, items[index], here);
      ItemsReportOnce(rules, items, at, index + 1);
      forall v: Violation | v in first ensures v.at[|at|] == Index(index) && at <= v.at {
        assert v.at[..|here|] == here;
        assert v.at[|at|] == here[|at|];
        assert at == here[..|at|];
      }
      NoneTwiceCat(first, others);
    }
  }
}
