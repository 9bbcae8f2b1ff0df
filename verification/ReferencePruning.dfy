/** Repairing a saved response by deleting its unknown references:
    `_remove_unknown_reference_list_items` (conclusion/manager.py) applied to what
    `unknown_reference_ids` (conclusion/validator.py) reports. */
module ReferencePruning {
  import opened Json
  import opened PathText
  import opened References

  /** A violation as it is stored: with its printed path. */
  datatype Found = Found(kind: string, id: string, path: string)

  function Printed(v: Violation): Found {
    Found(v.kind, v.id, Print(v.at))
  }

  // ---- navigation ----

  /** `value[step]`; None where Python would raise, or leave lists and dictionaries. */
  function Child(j: Json, step: Step): Option<Json> {
    match step
    case Key(name) => if j.Obj? then Get(j.fields, name) else None
    case Index(i) => if j.Arr? && i < |j.items| then Some(j.items[i]) else None
  }

  function Lookup(j: Json, at: Path): Option<Json> {
    if at == [] then Some(j)
    else
      match Child(j, at[0])
      case None => None
      case Some(child) => Lookup(child, at[1..])
  }

  /** `value[step] = x`. */
  function Replace(j: Json, step: Step, x: Json): Json
    requires Child(j, step).Some?
  {
    match step
    case Key(name) => Obj(Put(j.fields, name, x))
    case Index(i) => Arr(j.items[i := x])
  }

  /** The same value with the part at a path replaced. */
  function SetAt(j: Json, at: Path, x: Json): Json
    requires Lookup(j, at).Some?
    decreases |at|
  {
    if at == [] then x
    else Replace(j, at[0], SetAt(Child(j, at[0]).value, at[1..], x))
  }

  // ---- where violations are ----

  /** The list a reference field holds at a path. */
  predicate RefList(rules: Rules, j: Json, at: Path, field: string, list: seq<Json>) {
    && at != [] && at[|at| - 1] == Key(field) && IsChecked(rules, field)
    && Lookup(j, at) == Some(Arr(list))
  }

  lemma {:induction false} ItemsFoundAt(rules: Rules, field: string, items: seq<Json>, at: Path, index: nat,
                                        v: Violation)
    requires index <= |items| && v in FindInItems(rules, field, items, at, index)
    ensures exists i :: index <= i < |items| && Bad(rules, field, items[i])
              && v == Violation(rules.kindOf(field).value, items[i].s, at + [Index(i)])
    decreases |items| - index
  {
    if v in FindInItems(rules, field, items, at, index + 1) {
      ItemsFoundAt(rules, field, items, at, index + 1, v);
    } else {
      assert v in Find(rules, field, items[index], at + [Index(index)]);
    }
  }

  lemma {:induction false} ItemsFind(rules: Rules, field: string, items: seq<Json>, at: Path, index: nat, i: nat)
    requires index <= i < |items| && Bad(rules, field, items[i])
    ensures Violation(rules.kindOf(field).value, items[i].s, at + [Index(i)]) in FindInItems(rules, field, items, at,
              index)
    decreases |items| - index
  {
    if index < i {
      ItemsFind(rules, field, items, at, index + 1, i);
    }
  }

  /** The violation is the bad item at an index of the list a relative path leads to. */
  predicate PlacedAt(rules: Rules, j: Json, at: Path, v: Violation, rel: Path, field: string, list: seq<Json>, i: nat) {
    && RefList(rules, j, rel, field, list) && i < |list| && v.at == at + rel + [Index(i)]
    && Bad(rules, field, list[i]) && v.id == list[i].s && v.kind == rules.kindOf(field).value
  }

  ghost predicate Placed(rules: Rules, j: Json, at: Path, v: Violation) {
    exists rel, field, list, i :: PlacedAt(rules, j, at, v, rel, field, list, i)
  }

  lemma RefListBelow(rules: Rules, j: Json, step: Step, child: Json, rel: Path, field: string, list: seq<Json>)
    requires Child(j, step) == Some(child) && RefList(rules, child, rel, field, list)
    ensures RefList(rules, j, [step] + rel, field, list)
  {
    assert ([step] + rel)[1..] == rel;
  }

  lemma PlacedBelow(rules: Rules, j: Json, at: Path, step: Step, child: Json, v: Violation)
    requires Child(j, step) == Some(child) && Placed(rules, child, at + [step], v)
    ensures Placed(rules, j, at, v)
  {
    var rel, field, list, i :| PlacedAt(rules, child, at + [step], v, rel, field, list, i);
    RefListBelow(rules, j, step, child, rel, field, list);
    assert at + [step] + rel == at + ([step] + rel);
    assert PlacedAt(rules, j, at, v, [step] + rel, field, list, i);
  }

  lemma PlacedHere(rules: Rules, j: Json, at: Path, field: string, list: seq<Json>, i: nat, v: Violation)
    requires j.Obj? && Get(j.fields, field) == Some(Arr(list)) && i < |list| && Bad(rules, field, list[i])
    requires v == Violation(rules.kindOf(field).value, list[i].s, at + [Key(field)] + [Index(i)])
    ensures Placed(rules, j, at, v)
  {
    var rel := [Key(field)];
    assert rel[1..] == [];
    assert PlacedAt(rules, j, at, v, rel, field, list, i);
  }

  lemma {:induction false} UnknownIsPlaced(rules: Rules, j: Json, at: Path, v: Violation)
    requires UniqueKeys(j) && v in Unknown(rules, j, at) && v.at != [] && v.at[|v.at| - 1].Index?
    ensures Placed(rules, j, at, v)
    decreases j, 1
  {
    match j
    case Obj(fs) => FieldIsPlaced(rules, fs, fs, at, v);
    case Arr(items) => ItemIsPlaced(rules, items, at, 0, v);
  }

  lemma {:induction false} FieldIsPlaced(rules: Rules, whole: Fields, fs: Fields, at: Path, v: Violation)
    requires UniqueFields(fs) && forall k | Has(fs, k) :: Get(whole, k) == Get(fs, k)
    requires v in UnknownInFields(rules, fs, at) && v.at != [] && v.at[|v.at| - 1].Index?
    ensures Placed(rules, Obj(whole), at, v)
    decreases fs, 0
  {
    var here := at + [Key(fs.key)];
    assert Get(whole, fs.key) == Get(fs, fs.key) == Some(fs.val);
    if v in FindInField(rules, fs.key, fs.val, here) {
      if fs.val.Arr? {
        ItemsFoundAt(rules, fs.key, fs.val.items, here, 0, v);
        var i :| 0 <= i < |fs.val.items| && Bad(rules, fs.key, fs.val.items[i])
          && v == Violation(rules.kindOf(fs.key).value, fs.val.items[i].s, here + [Index(i)]);
        PlacedHere(rules, Obj(whole), at, fs.key, fs.val.items, i, v);
      }
    } else if v in Unknown(rules, fs.val, here) {
      UnknownIsPlaced(rules, fs.val, here, v);
      PlacedBelow(rules, Obj(whole), at, Key(fs.key), fs.val, v);
    } else {
      assert forall k | Has(fs.rest, k) :: Has(fs, k) && Get(fs, k) == Get(fs.rest, k);
      FieldIsPlaced(rules, whole, fs.rest, at, v);
    }
  }

  lemma {:induction false} ItemIsPlaced(rules: Rules, items: seq<Json>, at: Path, index: nat, v: Violation)
    requires index <= |items| && forall i | 0 <= i < |items| :: UniqueKeys(items[i])
    requires v in UnknownInItems(rules, items, at, index) && v.at != [] && v.at[|v.at| - 1].Index?
    ensures Placed(rules, Arr(items), at, v)
    decreases items, 0, |items| - index
  {
    assert items decreases to items[index];
    if v in Unknown(rules, items[index], at + [Index(index)]) {
      UnknownIsPlaced(rules, items[index], at + [Index(index)], v);
      PlacedBelow(rules, Arr(items), at, Index(index), items[index], v);
    } else {
      ItemIsPlaced(rules, items, at, index + 1, v);
    }
  }

  /** Every bad item of a list the walk reaches is reported. */
  lemma {:induction false} BadIsReported(rules: Rules, j: Json, at: Path, rel: Path, field: string, list: seq<Json>,
                                         i: nat)
    requires RefList(rules, j, rel, field, list) && i < |list| && Bad(rules, field, list[i])
    ensures Violation(rules.kindOf(field).value, list[i].s, at + rel + [Index(i)]) in Unknown(rules, j, at)
    decreases |rel|
  {
    var v := Violation(rules.kindOf(field).value, list[i].s, at + rel + [Index(i)]);
    var child := Child(j, rel[0]).value;
    if |rel| > 1 {
      assert rel[1..][|rel| - 2] == rel[|rel| - 1];
      BadIsReported(rules, child, at + [rel[0]], rel[1..], field, list, i);
      assert at + [rel[0]] + rel[1..] == at + rel;
    } else {
      assert rel == [Key(field)] && rel[1..] == [];
      assert Lookup(child, rel[1..]) == Some(child);
      assert child == Arr(list);
      ItemsFind(rules, field, list, at + [Key(field)], 0, i);
      assert at + rel == at + [Key(field)];
      assert v in FindInField(rules, field, child, at + [Key(field)]);
    }
    match rel[0]
    case Key(name) => FieldReports(rules, j.fields, name, at, v);
    case Index(k) => ItemReports(rules, j.items, at, 0, k, v);
  }

  lemma {:induction false} FieldReports(rules: Rules, fs: Fields, name: string, at: Path, v: Violation)
    requires Has(fs, name)
    requires var here := at + [Key(name)];
             v in FindInField(rules, name, Get(fs, name).value, here) || v in Unknown(rules, Get(fs, name).value, here)
    ensures v in UnknownInFields(rules, fs, at)
    decreases fs
  {
    if fs.key != name {
      FieldReports(rules, fs.rest, name, at, v);
    }
  }

  lemma {:induction false} ItemReports(rules: Rules, items: seq<Json>, at: Path, index: nat, k: nat, v: Violation)
    requires index <= k < |items| && v in Unknown(rules, items[k], at + [Index(k)])
    ensures v in UnknownInItems(rules, items, at, index)
    decreases |items| - index
  {
    if index < k {
      ItemReports(rules, items, at, index + 1, k, v);
    }
  }

  /** Names that the path reader understands, wherever a violation can be reported. */
  predicate PlainNames(j: Json)
    decreases j, 0
  {
    match j
    case Obj(fs) => PlainFieldNames(fs)
    case Arr(items) => forall i | 0 <= i < |items| :: PlainNames(items[i])
    case _ => true
  }

  predicate PlainFieldNames(fs: Fields)
    decreases fs, 0
  {
    match fs
    case Empty => true
    case Field(k, v, rest) => PlainName(k) && PlainNames(v) && PlainFieldNames(rest)
  }

  lemma {:induction false} PathIsPlain(rules: Rules, j: Json, at: Path, v: Violation)
    requires PlainNames(j) && PlainPath(at) && v in Unknown(rules, j, at)
    ensures PlainPath(v.at)
    decreases j, 1
  {
    match j
    case Obj(fs) => FieldPathIsPlain(rules, fs, at, v);
    case Arr(items) => ItemPathIsPlain(rules, items, at, 0, v);
  }

  lemma {:induction false} FieldPathIsPlain(rules: Rules, fs: Fields, at: Path, v: Violation)
    requires PlainFieldNames(fs) && PlainPath(at) && v in UnknownInFields(rules, fs, at)
    ensures PlainPath(v.at)
    decreases fs, 0
  {
    var here := at + [Key(fs.key)];
    if v in FindInField(rules, fs.key, fs.val, here) {
      if fs.val.Arr? {
        ItemsFoundAt(rules, fs.key, fs.val.items, here, 0, v);
      }
    } else if v in Unknown(rules, fs.val, here) {
      PathIsPlain(rules, fs.val, here, v);
    } else {
      FieldPathIsPlain(rules, fs.rest, at, v);
    }
  }

  lemma {:induction false} ItemPathIsPlain(rules: Rules, items: seq<Json>, at: Path, index: nat, v: Violation)
    requires index <= |items| && forall i | 0 <= i < |items| :: PlainNames(items[i])
    requires PlainPath(at) && v in UnknownInItems(rules, items, at, index)
    ensures PlainPath(v.at)
    decreases items, 0, |items| - index
  {
    assert items decreases to items[index];
    if v in Unknown(rules, items[index], at + [Index(index)]) {
      PathIsPlain(rules, items[index], at + [Index(index)], v);
    } else {
      ItemPathIsPlain(rules, items, at, index + 1, v);
    }
  }

  /** At one position there is at most one violation. */
  lemma PlacedOnce(rules: Rules, j: Json, v: Violation, w: Violation)
    requires Placed(rules, j, [], v) && Placed(rules, j, [], w) && v.at == w.at
    ensures v == w
  {
    var rel, field, list, i :| PlacedAt(rules, j, [], v, rel, field, list, i);
    var relB, fieldB, listB, iB :| PlacedAt(rules, j, [], w, relB, fieldB, listB, iB);
    assert [] + rel + [Index(i)] == rel + [Index(i)] && [] + relB + [Index(iB)] == relB + [Index(iB)];
    assert rel == (rel + [Index(i)])[..|rel|] && relB == (relB + [Index(iB)])[..|relB|];
    assert (rel + [Index(i)])[|rel|] == Index(i) && (relB + [Index(iB)])[|relB|] == Index(iB);
  }

  // ---- filtering some of the lists ----

  /** The value with the reference lists at some paths filtered, and the others as they are. */
  function Partly(rules: Rules, j: Json, at: Path, done: set<Path>): Json
    decreases j, 0
  {
    match j
    case Obj(fs) => Obj(PartlyFields(rules, fs, at, done))
    case Arr(items) => Arr(PartlyItems(rules, items, at, done))
    case _ => j
  }

  function PartlyFields(rules: Rules, fs: Fields, at: Path, done: set<Path>): Fields
    decreases fs, 0
  {
    match fs
    case Empty => Empty
    case Field(k, v, rest) => Field(k, PartlyField(rules, k, v, at, done), PartlyFields(rules, rest, at, done))
  }

  function PartlyField(rules: Rules, k: string, v: Json, at: Path, done: set<Path>): Json
    decreases v, 1
  {
    if v.Arr? && at + [Key(k)] in done then Arr(CleanKept(rules, k, v.items))
    else Partly(rules, v, at + [Key(k)], done)
  }

  function PartlyItems(rules: Rules, items: seq<Json>, at: Path, done: set<Path>, index: nat := 0): (r: seq<Json>)
    requires index <= |items|
    ensures |r| == |items| - index
    ensures forall i | 0 <= i < |r| :: r[i] == Partly(rules, items[index + i], at + [Index(index + i)], done)
    decreases items, 0, |items| - index
  {
    if index == |items| then []
    else
      assert items decreases to items[index];
      [Partly(rules, items[index], at + [Index(index)], done)] + PartlyItems(rules, items, at, done, index + 1)
  }

  lemma {:induction false} PartlyGet(rules: Rules, fs: Fields, at: Path, done: set<Path>, key: string)
    requires Has(fs, key)
    ensures Get(PartlyFields(rules, fs, at, done), key) == Some(PartlyField(rules, key, Get(fs, key).value, at, done))
  {
    if fs.key != key {
      PartlyGet(rules, fs.rest, at, done, key);
    }
  }

  lemma {:induction false} NothingDone(rules: Rules, j: Json, at: Path)
    ensures Partly(rules, j, at, {}) == j
    decreases j, 1
  {
    match j
    case Obj(fs) => NoFieldDone(rules, fs, at);
    case Arr(items) =>
      forall i | 0 <= i < |items| ensures Partly(rules, items[i], at + [Index(i)], {}) == items[i] {
        NothingDone(rules, items[i], at + [Index(i)]);
      }
      assert PartlyItems(rules, items, at, {}) == items;
    case _ =>
  }

  lemma {:induction false} NoFieldDone(rules: Rules, fs: Fields, at: Path)
    ensures PartlyFields(rules, fs, at, {}) == fs
    decreases fs, 0
  {
    if fs.Field? {
      NothingDone(rules, fs.val, at + [Key(fs.key)]);
      NoFieldDone(rules, fs.rest, at);
    }
  }

  predicate Under(at: Path, p: Path) {
    at <= p
  }

  /** The two sets agree on every path at or below a position. */
  ghost predicate AgreeBelow(at: Path, a: set<Path>, b: set<Path>) {
    forall p | Under(at, p) :: p in a <==> p in b
  }

  lemma AgreeFurther(at: Path, step: Step, a: set<Path>, b: set<Path>)
    requires AgreeBelow(at, a, b)
    ensures AgreeBelow(at + [step], a, b) && (at + [step] in a <==> at + [step] in b)
  {
    forall p | Under(at + [step], p) ensures Under(at, p) {
      assert (at + [step])[..|at|] == at;
    }
    assert Under(at, at + [step]);
  }

  lemma {:induction false} SameDone(rules: Rules, j: Json, at: Path, a: set<Path>, b: set<Path>)
    requires AgreeBelow(at, a, b)
    ensures Partly(rules, j, at, a) == Partly(rules, j, at, b)
    decreases j, 1
  {
    match j
    case Obj(fs) => SameFieldsDone(rules, fs, at, a, b);
    case Arr(items) =>
      forall i | 0 <= i < |items|
        ensures Partly(rules, items[i], at + [Index(i)], a) == Partly(rules, items[i], at + [Index(i)], b)
      {
        AgreeFurther(at, Index(i), a, b);
        SameDone(rules, items[i], at + [Index(i)], a, b);
      }
      var xs, ys := PartlyItems(rules, items, at, a), PartlyItems(rules, items, at, b);
      assert forall i | 0 <= i < |xs| :: xs[i] == ys[i];
      assert xs == ys;
    case _ =>
  }

  lemma {:induction false} SameFieldsDone(rules: Rules, fs: Fields, at: Path, a: set<Path>, b: set<Path>)
    requires AgreeBelow(at, a, b)
    ensures PartlyFields(rules, fs, at, a) == PartlyFields(rules, fs, at, b)
    decreases fs, 0
  {
    if fs.Field? {
      AgreeFurther(at, Key(fs.key), a, b);
      SameDone(rules, fs.val, at + [Key(fs.key)], a, b);
      SameFieldsDone(rules, fs.rest, at, a, b);
    }
  }

  lemma {:induction false} ScalarsUntouched(rules: Rules, items: seq<Json>, at: Path, done: set<Path>)
    requires forall i | 0 <= i < |items| :: IsScalar(items[i])
    ensures PartlyItems(rules, items, at, done) == items
  {
  }

  lemma Apart(at: Path, step: Step, rel: Path, done: set<Path>)
    requires rel != [] && rel[0] != step
    ensures AgreeBelow(at + [step], done, done + {at + rel})
  {
    forall p | Under(at + [step], p) ensures p != at + rel {
      assert p[|at|] == (at + [step])[|at|] == step;
      assert (at + rel)[|at|] == rel[0];
    }
  }

  /** The paths of lists under reference fields. */
  predicate RefPaths(rules: Rules, done: set<Path>) {
    forall p: Path | p in done :: p != [] && p[|p| - 1].Key? && IsChecked(rules, p[|p| - 1].name)
  }

  lemma ScalarListIsEnd(items: seq<Json>, rel: Path, list: seq<Json>)
    requires forall i | 0 <= i < |items| :: IsScalar(items[i])
    requires Lookup(Arr(items), rel) == Some(Arr(list))
    ensures rel == []
  {
  }

  lemma {:induction false} PutField(rules: Rules, fs: Fields, at: Path, name: string, a: set<Path>, b: set<Path>)
    requires UniqueFields(fs) && Has(fs, name)
    requires forall k | k != name :: AgreeBelow(at + [Key(k)], a, b)
    ensures Put(PartlyFields(rules, fs, at, a), name, PartlyField(rules, name, Get(fs, name).value, at, b))
         == PartlyFields(rules, fs, at, b)
  {
    if fs.key == name {
      OtherFields(rules, fs.rest, at, name, a, b);
    } else {
      SameField(rules, fs.key, fs.val, at, a, b);
      PutField(rules, fs.rest, at, name, a, b);
    }
  }

  lemma SameField(rules: Rules, k: string, v: Json, at: Path, a: set<Path>, b: set<Path>)
    requires AgreeBelow(at + [Key(k)], a, b)
    ensures PartlyField(rules, k, v, at, a) == PartlyField(rules, k, v, at, b)
  {
    assert Under(at + [Key(k)], at + [Key(k)]);
    SameDone(rules, v, at + [Key(k)], a, b);
  }

  lemma {:induction false} OtherFields(rules: Rules, fs: Fields, at: Path, name: string, a: set<Path>, b: set<Path>)
    requires !Has(fs, name) && forall k | k != name :: AgreeBelow(at + [Key(k)], a, b)
    ensures PartlyFields(rules, fs, at, a) == PartlyFields(rules, fs, at, b)
  {
    if fs.Field? {
      assert fs.key != name;
      SameField(rules, fs.key, fs.val, at, a, b);
      OtherFields(rules, fs.rest, at, name, a, b);
    }
  }

  lemma {:induction false} ScalarListUnder(rules: Rules, fs: Fields, name: string)
    requires ScalarListsIn(rules, fs) && Has(fs, name)
    ensures ScalarLists(rules, Get(fs, name).value)
    ensures IsChecked(rules, name) && Get(fs, name).value.Arr? ==>
              forall i | 0 <= i < |Get(fs, name).value.items| :: IsScalar(Get(fs, name).value.items[i])
  {
    if fs.key != name {
      ScalarListUnder(rules, fs.rest, name);
    }
  }

  /** Filtering one more list in place is filtering it in the result. */
  lemma {:induction false} FilterOne(rules: Rules, j: Json, at: Path, rel: Path, field: string, list: seq<Json>,
                                     done: set<Path>)
    requires UniqueKeys(j) && ScalarLists(rules, j) && RefPaths(rules, done)
    requires RefList(rules, j, rel, field, list) && at + rel !in done
    ensures Lookup(Partly(rules, j, at, done), rel) == Some(Arr(list))
    ensures SetAt(Partly(rules, j, at, done), rel, Arr(CleanKept(rules, field, list)))
         == Partly(rules, j, at, done + {at + rel})
    decreases |rel|
  {
    match rel[0]
    case Key(name) => FilterField(rules, j.fields, at, name, rel, field, list, done);
    case Index(i) => FilterItem(rules, j.items, at, i, rel, field, list, done);
  }

  lemma {:induction false} FilterItem(rules: Rules, items: seq<Json>, at: Path, i: nat, rel: Path, field: string,
                                      list: seq<Json>, done: set<Path>)
    requires UniqueKeys(Arr(items)) && ScalarLists(rules, Arr(items)) && RefPaths(rules, done)
    requires RefList(rules, Arr(items), rel, field, list) && at + rel !in done && rel[0] == Index(i)
    ensures Lookup(Partly(rules, Arr(items), at, done), rel) == Some(Arr(list))
    ensures SetAt(Partly(rules, Arr(items), at, done), rel, Arr(CleanKept(rules, field, list)))
         == Partly(rules, Arr(items), at, done + {at + rel})
    decreases |rel|, 0
  {
    var here := at + [Index(i)];
    assert at + rel == here + rel[1..];
    FilterOne(rules, items[i], here, rel[1..], field, list, done);
    var more := done + {at + rel};
    var xs, ys := PartlyItems(rules, items, at, done), PartlyItems(rules, items, at, more);
    forall k | 0 <= k < |items| && k != i ensures xs[k] == ys[k] {
      Apart(at, Index(k), rel, done);
      SameDone(rules, items[k], at + [Index(k)], done, more);
    }
    assert xs[i := ys[i]] == ys;
  }

  lemma {:induction false} FilterField(rules: Rules, fs: Fields, at: Path, name: string, rel: Path, field: string,
                                       list: seq<Json>, done: set<Path>)
    requires UniqueKeys(Obj(fs)) && ScalarLists(rules, Obj(fs)) && RefPaths(rules, done)
    requires RefList(rules, Obj(fs), rel, field, list) && at + rel !in done && rel[0] == Key(name)
    ensures Lookup(Partly(rules, Obj(fs), at, done), rel) == Some(Arr(list))
    ensures SetAt(Partly(rules, Obj(fs), at, done), rel, Arr(CleanKept(rules, field, list)))
         == Partly(rules, Obj(fs), at, done + {at + rel})
    decreases |rel|, 0
  {
    var v, here, more := Get(fs, name).value, at + [Key(name)], done + {at + rel};
    assert at + rel == here + rel[1..];
    ScalarListUnder(rules, fs, name);
    UniqueGet(fs, name);
    PartlyGet(rules, fs, at, done, name);
    if |rel| == 1 {
      assert at + rel == here && rel[1..] == [];
      assert Lookup(v, rel[1..]) == Some(v);
      assert v == Arr(list) && name == field;
      ScalarsUntouched(rules, list, here, done);
    } else {
      assert rel[1..][|rel| - 2] == rel[|rel| - 1];
      if v.Arr? && here in done {
        assert here[|here| - 1] == Key(name);
        ScalarListIsEnd(v.items, rel[1..], list);
        assert false;
      }
      FilterOne(rules, v, here, rel[1..], field, list, done);
      assert here != at + rel;
    }
    forall k | k != name ensures AgreeBelow(at + [Key(k)], done, more) {
      Apart(at, Key(k), rel, done);
    }
    PutField(rules, fs, at, name, done, more);
  }

  // ---- filtering all the lists that have something to filter ----

  /** The violation is a list item, of a list at one of the paths. */
  predicate ListedIn(v: Violation, done: set<Path>) {
    v.at != [] && v.at[|v.at| - 1].Index? && v.at[..|v.at| - 1] in done
  }

  lemma {:induction false} AllDone(rules: Rules, j: Json, at: Path, done: set<Path>)
    requires forall v | v in Unknown(rules, j, at) :: ListedIn(v, done)
    ensures Partly(rules, j, at, done) == Clean(rules, j)
    decreases j, 2
  {
    match j
    case Obj(fs) => AllFieldsDone(rules, fs, at, done);
    case Arr(items) => AllItemsDone(rules, items, at, done);
    case _ =>
  }

  lemma {:induction false} AllItemsDone(rules: Rules, items: seq<Json>, at: Path, done: set<Path>)
    requires forall v | v in UnknownInItems(rules, items, at) :: ListedIn(v, done)
    ensures PartlyItems(rules, items, at, done) == CleanItems(rules, items)
    decreases items, 1
  {
    CleanItemsAre(rules, items);
    var xs, ys := PartlyItems(rules, items, at, done), CleanItems(rules, items);
    forall i | 0 <= i < |items| ensures xs[i] == ys[i] {
      forall v | v in Unknown(rules, items[i], at + [Index(i)]) ensures ListedIn(v, done) {
        ItemReports(rules, items, at, 0, i, v);
      }
      AllDone(rules, items[i], at + [Index(i)], done);
    }
  }

  lemma {:induction false} AllFieldsDone(rules: Rules, fs: Fields, at: Path, done: set<Path>)
    requires forall v | v in UnknownInFields(rules, fs, at) :: ListedIn(v, done)
    ensures PartlyFields(rules, fs, at, done) == CleanFields(rules, fs)
    decreases fs, 1
  {
    if fs.Field? {
      var here := at + [Key(fs.key)];
      AllFieldsDone(rules, fs.rest, at, done);
      if fs.val.Arr? {
        ListDone(rules, fs.key, fs.val.items, here, done);
      } else {
        NotAField(rules, fs.key, fs.val, here, done);
        AllDone(rules, fs.val, here, done);
      }
    }
  }

  lemma BadFieldFound(rules: Rules, field: string, v: Json, here: Path)
    requires Bad(rules, field, v)
    ensures exists w :: w in FindInField(rules, field, v, here) && w.at == here
  {
    assert Violation(rules.kindOf(field).value, v.s, here) in FindInField(rules, field, v, here);
  }

  lemma NotAField(rules: Rules, field: string, v: Json, here: Path, done: set<Path>)
    requires here != [] && here[|here| - 1] == Key(field) && !v.Arr?
    requires forall w | w in FindInField(rules, field, v, here) :: ListedIn(w, done)
    ensures !Bad(rules, field, v)
  {
    if Bad(rules, field, v) {
      BadFieldFound(rules, field, v, here);
      assert false;
    }
  }

  lemma {:induction false} ListDone(rules: Rules, field: string, items: seq<Json>, here: Path, done: set<Path>)
    requires forall v | v in FindInField(rules, field, Arr(items), here) :: ListedIn(v, done)
    requires forall v | v in Unknown(rules, Arr(items), here) :: ListedIn(v, done)
    ensures here !in done ==> Partly(rules, Arr(items), here, done) == Arr(CleanKept(rules, field, items))
    decreases items, 2
  {
    forall i | 0 <= i < |items| && Bad(rules, field, items[i]) ensures here in done {
      ItemsFind(rules, field, items, here, 0, i);
      var w := Violation(rules.kindOf(field).value, items[i].s, here + [Index(i)]);
      assert w in FindInField(rules, field, Arr(items), here);
      assert w.at[..|w.at| - 1] == here;
    }
    if here !in done {
      NoneBadKeepsAll(rules, field, items);
      AllItemsDone(rules, items, here, done);
    }
  }

  // ---- popping the listed positions ----

  /** The elements from an index on, but for those at the given indexes. */
  function KeepFrom(list: seq<Json>, gone: set<nat>, index: nat): seq<Json>
    requires index <= |list|
    decreases |list| - index
  {
    if index == |list| then []
    else (if index in gone then [] else [list[index]]) + KeepFrom(list, gone, index + 1)
  }

  lemma {:induction false} KeepGap(list: seq<Json>, gone: set<nat>, from: nat, to: nat)
    requires from <= to <= |list| && forall i | from <= i < to :: i !in gone
    ensures KeepFrom(list, gone, from) == list[from..to] + KeepFrom(list, gone, to)
    decreases |list| - from
  {
    if from < to {
      KeepGap(list, gone, from + 1, to);
      assert list[from..to] == [list[from]] + list[from + 1..to];
      Regroup([list[from]], list[from + 1..to], KeepFrom(list, gone, to));
    } else {
      assert list[from..to] == [];
    }
  }

  lemma Regroup(a: seq<Json>, b: seq<Json>, c: seq<Json>)
    ensures a + (b + c) == (a + b) + c
  {
  }

  lemma {:induction false} KeepSame(list: seq<Json>, a: set<nat>, b: set<nat>, index: nat)
    requires index <= |list| && forall i | index <= i < |list| :: i in a <==> i in b
    ensures KeepFrom(list, a, index) == KeepFrom(list, b, index)
    decreases |list| - index
  {
    if index < |list| {
      KeepSame(list, a, b, index + 1);
    }
  }

  /** Popping an index below all those popped before. */
  lemma PopBelow(list: seq<Json>, gone: set<nat>, low: nat, i: nat, cur: seq<Json>)
    requires i < low <= |list| && cur == list[..low] + KeepFrom(list, gone, low) && forall g | g in gone :: low <= g
    ensures cur[i] == list[i]
    ensures cur[..i] + cur[i + 1..] == list[..i] + KeepFrom(list, gone + {i}, i)
  {
    var more := gone + {i};
    KeepSame(list, gone, more, low);
    KeepGap(list, more, i + 1, low);
    assert cur[i + 1..] == list[i + 1..low] + KeepFrom(list, gone, low);
    assert cur[..i] == list[..i];
  }

  type Entry = (nat, string)

  predicate Descending(items: seq<Entry>) {
    forall a, b | 0 <= a < b < |items| :: items[a].0 >= items[b].0
  }

  predicate DistinctIndexes(items: seq<Entry>) {
    forall a, b | 0 <= a < b < |items| :: items[a].0 != items[b].0
  }

  /** How many leading entries have a greater index. */
  function Rank(x: Entry, items: seq<Entry>): (p: nat)
    ensures p <= |items|
    ensures forall k | 0 <= k < p :: items[k].0 > x.0
    ensures p < |items| ==> x.0 >= items[p].0
  {
    if items == [] || x.0 >= items[0].0 then 0 else 1 + Rank(x, items[1..])
  }

  function Insert(x: Entry, items: seq<Entry>): (r: seq<Entry>)
    ensures |r| == |items| + 1 && forall y :: y in r <==> y == x || y in items
  {
    var p := Rank(x, items);
    assert items == items[..p] + items[p..];
    items[..p] + [x] + items[p..]
  }

  lemma InsertAt(x: Entry, items: seq<Entry>)
    ensures var p, r := Rank(x, items), Insert(x, items);
            && (forall k | 0 <= k < p :: r[k] == items[k])
            && r[p] == x
            && (forall k | p < k < |r| :: r[k] == items[k - 1])
  {
  }

  lemma BelowRank(x: Entry, items: seq<Entry>, k: nat)
    requires Descending(items) && Rank(x, items) <= k < |items|
    ensures x.0 >= items[k].0
  {
    assert items[Rank(x, items)].0 >= items[k].0;
  }

  lemma InsertKeeps(x: Entry, items: seq<Entry>)
    requires Descending(items)
    ensures Descending(Insert(x, items))
    ensures DistinctIndexes(items) && (forall y | y in items :: y.0 != x.0) ==> DistinctIndexes(Insert(x, items))
  {
    var p, r := Rank(x, items), Insert(x, items);
    InsertAt(x, items);
    forall a, b | 0 <= a < b < |r| ensures r[a].0 >= r[b].0 {
      if a == p {
        BelowRank(x, items, b - 1);
      }
    }
    if DistinctIndexes(items) && forall y | y in items :: y.0 != x.0 {
      forall a, b | 0 <= a < b < |r| ensures r[a].0 != r[b].0 {
        if a == p {
          assert items[b - 1] in items;
        } else if b == p {
          assert items[a] in items;
        }
      }
    }
  }

  /** `sorted(items, reverse=True)`, by index. */
  function SortDescending(items: seq<Entry>): (r: seq<Entry>)
    ensures Descending(r)
    ensures |r| == |items| && forall y :: y in r <==> y in items
    ensures DistinctIndexes(items) ==> DistinctIndexes(r)
  {
    if items == [] then []
    else
      var rest := SortDescending(items[1..]);
      assert forall k | 0 <= k < |items[1..]| :: items[1..][k] == items[k + 1];
      InsertKeeps(items[0], rest);
      Insert(items[0], rest)
  }

  function IndexesOf(items: seq<Entry>): set<nat> {
    set x | x in items :: x.0
  }

  /** The entry names an item of the list that still has the expected value. */
  predicate Expected(list: seq<Json>, x: Entry) {
    x.0 < |list| && list[x.0] == Str(x.1)
  }

  /** The inner loop: pop each listed index, highest first, as long as the item found there
      is the expected one. */
  method PopListed(list: seq<Json>, items: seq<Entry>) returns (r: Option<seq<Json>>)
    ensures DistinctIndexes(items) ==>
              r == if forall x | x in items ::
                  Expected(list, x) then Some(KeepFrom(list, IndexesOf(items), 0)) else None
  {
    var sorted, cur := SortDescending(items), list;
    for k := 0 to |sorted|
      invariant DistinctIndexes(items) ==> Popped(list, sorted, k, cur)
    {
      var (index, expected) := sorted[k];
      if DistinctIndexes(items) {
        NextPop(list, sorted, k, cur);
      }
      if index >= |cur| || cur[index] != Str(expected) {
        assert sorted[k] in items;
        return None;
      }
      cur := cur[..index] + cur[index + 1..];
    }
    if DistinctIndexes(items) {
      AllPopped(list, sorted, cur);
      assert IndexesOf(sorted) == IndexesOf(items);
    }
    return Some(cur);
  }

  /** After the first `k` pops: the list up to the last popped index, then what is kept. */
  ghost predicate Popped(list: seq<Json>, sorted: seq<Entry>, k: nat, cur: seq<Json>)
    requires k <= |sorted|
  {
    && (forall b | 0 <= b < k :: Expected(list, sorted[b]))
    && (k == 0 ==> cur == list)
    && (k > 0 ==> cur == list[..sorted[k - 1].0] + KeepFrom(list, IndexesOf(sorted[..k]), sorted[k - 1].0))
  }

  lemma KeepNone(list: seq<Json>, gone: set<nat>)
    ensures KeepFrom(list, gone, |list|) == []
  {
  }

  lemma NextPop(list: seq<Json>, sorted: seq<Entry>, k: nat, cur: seq<Json>)
    requires k < |sorted| && Popped(list, sorted, k, cur) && Descending(sorted) && DistinctIndexes(sorted)
    ensures var (index, expected) := sorted[k];
            (index < |cur| && cur[index] == Str(expected) <==> Expected(list, sorted[k]))
            && (Expected(list, sorted[k]) && index < |cur| ==>
                  Popped(list, sorted, k + 1, cur[..index] + cur[index + 1..]))
  {
    hide KeepFrom;
    var (index, expected) := sorted[k];
    var gone := IndexesOf(sorted[..k]);
    var low := if k == 0 then |list| else sorted[k - 1].0;
    assert sorted[..k + 1] == sorted[..k] + [sorted[k]];
    assert IndexesOf(sorted[..k + 1]) == gone + {index};
    if k == 0 {
      assert list[..low] == list;
      KeepNone(list, gone);
    } else {
      assert index < low;
    }
    forall g | g in gone ensures low <= g {
      var x :| x in sorted[..k] && x.0 == g;
      var b :| 0 <= b < k && sorted[b] == x;
    }
    if index < low {
      PopBelow(list, gone, low, index, cur);
    }
  }

  lemma AllPopped(list: seq<Json>, sorted: seq<Entry>, cur: seq<Json>)
    requires Popped(list, sorted, |sorted|, cur) && Descending(sorted)
    ensures cur == KeepFrom(list, IndexesOf(sorted), 0)
  {
    assert sorted[..|sorted|] == sorted;
    var low := if sorted == [] then |list| else sorted[|sorted| - 1].0;
    forall g | g in IndexesOf(sorted) ensures low <= g {
      var x :| x in sorted && x.0 == g;
      var b :| 0 <= b < |sorted| && sorted[b] == x;
    }
    KeepGap(list, IndexesOf(sorted), 0, low);
    assert list[..|list|] == list && list[0..low] == list[..low];
  }

  // ---- grouping by list ----

  /** The path reads as a list item. */
  predicate Listable(f: Found) {
    var parts := Parse(f.path);
    parts != [] && parts[|parts| - 1].Index?
  }

  function ParentOf(f: Found): Path
    requires Listable(f)
  {
    var parts := Parse(f.path);
    parts[..|parts| - 1]
  }

  function EntryOf(f: Found): Entry
    requires Listable(f)
  {
    var parts := Parse(f.path);
    (parts[|parts| - 1].i, f.id)
  }

  /** The entries of one parent, in the order of the violations. */
  function Entries(violations: seq<Found>, parent: Path): seq<Entry>
    requires forall f | f in violations :: Listable(f)
  {
    if violations == [] then []
    else
      var init, last := violations[..|violations| - 1], violations[|violations| - 1];
      Entries(init, parent) + if ParentOf(last) == parent then [EntryOf(last)] else []
  }

  /** A dictionary of entry lists with its keys in insertion order. */
  datatype Groups = Groups(order: seq<Path>, entries: map<Path, seq<Entry>>)

  /** `grouped.setdefault(parent, []).append(entry)`. */
  function AddTo(g: Groups, parent: Path, entry: Entry): Groups {
    if parent in g.entries then g.(entries := g.entries[parent := g.entries[parent] + [entry]])
    else Groups(g.order + [parent], g.entries[parent := [entry]])
  }

  ghost predicate HasParent(violations: seq<Found>, p: Path)
    requires forall f | f in violations :: Listable(f)
  {
    exists f :: f in violations && ParentOf(f) == p
  }

  /** The groups hold each parent once, with its entries. */
  ghost predicate Grouped(g: Groups, violations: seq<Found>)
    requires forall f | f in violations :: Listable(f)
  {
    && (forall a, b | 0 <= a < b < |g.order| :: g.order[a] != g.order[b])
    && (forall p :: p in g.order <==> p in g.entries)
    && (forall p :: p in g.entries <==> HasParent(violations, p))
    && (forall p | p in g.entries :: g.entries[p] == Entries(violations, p))
  }

  lemma EntriesSnoc(violations: seq<Found>, f: Found, p: Path)
    requires Listable(f) && forall w | w in violations :: Listable(w)
    ensures Entries(violations + [f], p) == Entries(violations, p) + if ParentOf(f) == p then [EntryOf(f)] else []
  {
    assert (violations + [f])[..|violations|] == violations;
  }

  lemma {:induction false} NoEntries(violations: seq<Found>, p: Path)
    requires (forall w | w in violations :: Listable(w)) && !HasParent(violations, p)
    ensures Entries(violations, p) == []
  {
    if violations != [] {
      var init, last := violations[..|violations| - 1], violations[|violations| - 1];
      assert last in violations && forall w | w in init :: w in violations;
      NoEntries(init, p);
    }
  }

  lemma ParentsSnoc(violations: seq<Found>, f: Found, p: Path)
    requires Listable(f) && forall w | w in violations :: Listable(w)
    ensures HasParent(violations + [f], p) <==> HasParent(violations, p) || ParentOf(f) == p
  {
    if HasParent(violations, p) {
      var w :| w in violations && ParentOf(w) == p;
      assert w in violations + [f];
    }
    assert f in violations + [f];
  }

  lemma AddKeeps(g: Groups, violations: seq<Found>, f: Found)
    requires Listable(f) && (forall w | w in violations :: Listable(w)) && Grouped(g, violations)
    ensures Grouped(AddTo(g, ParentOf(f), EntryOf(f)), violations + [f])
  {
    var r := AddTo(g, ParentOf(f), EntryOf(f));
    forall p ensures p in r.entries <==> HasParent(violations + [f], p) {
      ParentsSnoc(violations, f, p);
    }
    forall p | p in r.entries ensures r.entries[p] == Entries(violations + [f], p) {
      EntriesSnoc(violations, f, p);
      if p !in g.entries {
        NoEntries(violations, p);
      }
    }
  }

  /** One turn of the first loop. */
  function AddFound(g: Groups, f: Found): Option<Groups> {
    if Listable(f) then Some(AddTo(g, ParentOf(f), EntryOf(f))) else None
  }

  predicate AllListable(violations: seq<Found>) {
    forall f | f in violations :: Listable(f)
  }

  ghost predicate GroupedTo(g: Groups, violations: seq<Found>, k: nat)
    requires k <= |violations|
  {
    AllListable(violations[..k]) && Grouped(g, violations[..k])
  }

  lemma NextGroup(g: Groups, violations: seq<Found>, k: nat)
    requires k < |violations| && GroupedTo(g, violations, k)
    ensures AddFound(g, violations[k]).Some? <==> Listable(violations[k])
    ensures AddFound(g, violations[k]).Some? ==> GroupedTo(AddFound(g, violations[k]).value, violations, k + 1)
  {
    var f := violations[k];
    assert violations[..k + 1] == violations[..k] + [f];
    if Listable(f) {
      AddKeeps(g, violations[..k], f);
    }
  }

  lemma NothingGrouped(violations: seq<Found>)
    ensures GroupedTo(Groups([], map[]), violations, 0)
  {
  }

  lemma AllGrouped(g: Groups, violations: seq<Found>)
    requires GroupedTo(g, violations, |violations|)
    ensures AllListable(violations) && Grouped(g, violations)
  {
    assert violations[..|violations|] == violations;
  }

  /** The first loop: read each path and collect its index under its parent; a path that does
      not read as a list item ends it. */
  method GroupByParent(violations: seq<Found>) returns (r: Option<Groups>)
    ensures r.Some? <==> AllListable(violations)
    ensures r.Some? ==> Grouped(r.value, violations)
  {
    var g := Groups([], map[]);
    NothingGrouped(violations);
    for k := 0 to |violations|
      invariant GroupedTo(g, violations, k)
    {
      var next := AddFound(g, violations[k]);
      NextGroup(g, violations, k);
      if next == None {
        assert violations[k] in violations;
        return None;
      }
      g := next.value;
    }
    AllGrouped(g, violations);
    return Some(g);
  }

  // ---- the whole repair ----

  /** The violations are those of the payload, each once and in any order, as stored. */
  ghost predicate Reports(rules: Rules, raw: Json, violations: seq<Found>, vs: seq<Violation>) {
    && UniqueKeys(raw) && PlainNames(raw) && ScalarLists(rules, raw)
    && |vs| == |violations|
    && (forall k | 0 <= k < |vs| :: violations[k] == Printed(vs[k]))
    && NoneTwice(vs)
    && (forall v :: v in vs <==> v in Unknown(rules, raw, []))
  }

  predicate IsListItem(v: Violation) {
    v.at != [] && v.at[|v.at| - 1].Index?
  }

  lemma StoredPath(rules: Rules, raw: Json, violations: seq<Found>, vs: seq<Violation>, k: nat)
    requires Reports(rules, raw, violations, vs) && k < |vs|
    ensures Parse(violations[k].path) == vs[k].at
    ensures Listable(violations[k]) <==> IsListItem(vs[k])
  {
    assert vs[k] in vs;
    PathIsPlain(rules, raw, [], vs[k]);
    ParsePrint(vs[k].at);
  }

  lemma ListableIff(rules: Rules, raw: Json, violations: seq<Found>, vs: seq<Violation>)
    requires Reports(rules, raw, violations, vs)
    ensures AllListable(violations) <==> (forall v | v in Unknown(rules, raw, []) :: IsListItem(v))
  {
    if AllListable(violations) {
      forall v | v in Unknown(rules, raw, []) ensures IsListItem(v) {
        assert v in vs;
        var k :| 0 <= k < |vs| && vs[k] == v;
        StoredPath(rules, raw, violations, vs, k);
        assert violations[k] in violations;
      }
    } else {
      var f :| f in violations && !Listable(f);
      var k :| 0 <= k < |violations| && violations[k] == f;
      StoredPath(rules, raw, violations, vs, k);
      assert vs[k] in vs;
    }
  }

  /** The entries of a parent come from its violations, each from another one. */
  lemma {:induction false} EntryFrom(violations: seq<Found>, p: Path, x: Entry) returns (k: nat)
    requires (forall f | f in violations :: Listable(f)) && x in Entries(violations, p)
    ensures k < |violations| && ParentOf(violations[k]) == p && EntryOf(violations[k]) == x
  {
    var init, last := violations[..|violations| - 1], violations[|violations| - 1];
    assert forall w | w in init :: w in violations;
    if x in Entries(init, p) {
      k := EntryFrom(init, p, x);
    } else {
      k := |violations| - 1;
    }
  }

  lemma {:induction false} EntryOfEach(violations: seq<Found>, p: Path, k: nat)
    requires (forall f | f in violations :: Listable(f)) && k < |violations| && ParentOf(violations[k]) == p
    ensures EntryOf(violations[k]) in Entries(violations, p)
  {
    var init := violations[..|violations| - 1];
    assert forall w | w in init :: w in violations;
    if k < |init| {
      EntryOfEach(init, p, k);
    }
  }

  lemma {:induction false} EntriesAreDistinct(violations: seq<Found>, p: Path)
    requires forall f | f in violations :: Listable(f)
    requires forall a, b | 0 <= a < b < |violations| && ParentOf(violations[a]) == ParentOf(violations[b]) ::
               EntryOf(violations[a]).0 != EntryOf(violations[b]).0
    ensures DistinctIndexes(Entries(violations, p))
  {
    if violations != [] {
      var init, last := violations[..|violations| - 1], violations[|violations| - 1];
      assert forall w | w in init :: w in violations;
      EntriesAreDistinct(init, p);
      if ParentOf(last) == p {
        forall x | x in Entries(init, p) ensures x.0 != EntryOf(last).0 {
          var k := EntryFrom(init, p, x);
          assert violations[k] == init[k];
        }
      }
    }
  }

  lemma EntryIsPlaced(rules: Rules, raw: Json, violations: seq<Found>, vs: seq<Violation>, k: nat)
    requires Reports(rules, raw, violations, vs) && AllListable(violations) && k < |violations|
    ensures k < |vs| && vs[k].at != [] && Placed(rules, raw, [], vs[k])
    ensures Listable(violations[k]) && vs[k].at == ParentOf(violations[k]) + [Index(EntryOf(violations[k]).0)]
  {
    assert violations[k] in violations && vs[k] in vs;
    StoredPath(rules, raw, violations, vs, k);
    UnknownIsPlaced(rules, raw, [], vs[k]);
  }

  lemma EntriesDiffer(rules: Rules, raw: Json, violations: seq<Found>, vs: seq<Violation>, a: nat, b: nat)
    requires Reports(rules, raw, violations, vs) && AllListable(violations) && a < b < |violations|
    requires Listable(violations[a]) && Listable(violations[b])
    requires ParentOf(violations[a]) == ParentOf(violations[b])
    ensures EntryOf(violations[a]).0 != EntryOf(violations[b]).0
  {
    assert vs[a] != vs[b];
    hide Reports, Placed, ParentOf, EntryOf, Listable, AllListable;
    EntryIsPlaced(rules, raw, violations, vs, a);
    EntryIsPlaced(rules, raw, violations, vs, b);
    if vs[a].at == vs[b].at {
      PlacedOnce(rules, raw, vs[a], vs[b]);
      assert false;
    }
  }

  lemma ReportedOnce(rules: Rules, raw: Json, violations: seq<Found>, vs: seq<Violation>, p: Path)
    requires Reports(rules, raw, violations, vs) && AllListable(violations)
    ensures DistinctIndexes(Entries(violations, p))
  {
    forall a, b | 0 <= a < b < |violations| && ParentOf(violations[a]) == ParentOf(violations[b])
      ensures EntryOf(violations[a]).0 != EntryOf(violations[b]).0
    {
      EntriesDiffer(rules, raw, violations, vs, a, b);
    }
    EntriesAreDistinct(violations, p);
  }

  /** The list at a parent path, and that exactly its bad items are listed. */
  lemma ParentIsList(rules: Rules, raw: Json, violations: seq<Found>, vs: seq<Violation>, p: Path)
    returns (field: string, list: seq<Json>)
    requires Reports(rules, raw, violations, vs) && AllListable(violations) && HasParent(violations, p)
    ensures RefList(rules, raw, p, field, list)
    ensures forall x | x in Entries(violations, p) :: Expected(list, x) && Bad(rules, field, list[x.0])
    ensures forall i: nat | i < |list| && Bad(rules, field, list[i]) :: i in IndexesOf(Entries(violations, p))
  {
    var f :| f in violations && ParentOf(f) == p;
    var k :| 0 <= k < |violations| && violations[k] == f;
    var j;
    field, list, j := EntryPlace(rules, raw, violations, vs, p, k);
    forall x | x in Entries(violations, p) ensures Expected(list, x) && Bad(rules, field, list[x.0]) {
      var m := EntryFrom(violations, p, x);
      var fieldB, listB, iB := EntryPlace(rules, raw, violations, vs, p, m);
    }
    forall i: nat | i < |list| && Bad(rules, field, list[i]) ensures i in IndexesOf(Entries(violations, p)) {
      BadIsListed(rules, raw, violations, vs, p, field, list, i);
    }
  }

  lemma PlacedAtRoot(rules: Rules, raw: Json, v: Violation) returns (rel: Path, field: string, list: seq<Json>, i: nat)
    requires Placed(rules, raw, [], v)
    ensures v.at == rel + [Index(i)] && v.at[..|v.at| - 1] == rel && v.at[|v.at| - 1] == Index(i)
    ensures RefList(rules, raw, rel, field, list) && i < |list| && Bad(rules, field, list[i]) && v.id == list[i].s
  {
    rel, field, list, i :| PlacedAt(rules, raw, [], v, rel, field, list, i);
    assert [] + rel == rel;
  }

  lemma EntryPlace(rules: Rules, raw: Json, violations: seq<Found>, vs: seq<Violation>, p: Path, k: nat)
    returns (field: string, list: seq<Json>, i: nat)
    requires Reports(rules, raw, violations, vs) && AllListable(violations)
    requires k < |violations| && violations[k] in violations && ParentOf(violations[k]) == p
    ensures RefList(rules, raw, p, field, list)
    ensures i < |list| && Bad(rules, field, list[i]) && EntryOf(violations[k]) == (i, list[i].s)
  {
    StoredPath(rules, raw, violations, vs, k);
    assert vs[k] in vs;
    UnknownIsPlaced(rules, raw, [], vs[k]);
    var rel;
    rel, field, list, i := PlacedAtRoot(rules, raw, vs[k]);
  }

  lemma BadIsListed(rules: Rules, raw: Json, violations: seq<Found>, vs: seq<Violation>, p: Path,
                    field: string, list: seq<Json>, i: nat)
    requires Reports(rules, raw, violations, vs) && AllListable(violations)
    requires RefList(rules, raw, p, field, list) && i < |list| && Bad(rules, field, list[i])
    ensures i in IndexesOf(Entries(violations, p))
  {
    BadIsReported(rules, raw, [], p, field, list, i);
    var v := Violation(rules.kindOf(field).value, list[i].s, [] + p + [Index(i)]);
    assert [] + p + [Index(i)] == p + [Index(i)];
    var k :| 0 <= k < |vs| && vs[k] == v;
    StoredPath(rules, raw, violations, vs, k);
    assert violations[k] in violations;
    assert (p + [Index(i)])[..|p|] == p;
    EntryOfEach(violations, p, k);
    assert EntryOf(violations[k]).0 == i;
  }

  lemma {:induction false} KeptScalars(rules: Rules, field: string, list: seq<Json>, gone: set<nat>, index: nat)
    requires index <= |list| && forall i | 0 <= i < |list| :: IsScalar(list[i])
    requires forall i: nat | i < |list| :: i in gone <==> Bad(rules, field, list[i])
    ensures KeepFrom(list, gone, index) == CleanKept(rules, field, list[index..])
    decreases |list| - index
  {
    if index < |list| {
      KeptScalars(rules, field, list, gone, index + 1);
      assert list[index..][1..] == list[index + 1..];
    }
  }

  lemma {:induction false} RefListIsScalar(rules: Rules, j: Json, at: Path, field: string, list: seq<Json>)
    requires ScalarLists(rules, j) && RefList(rules, j, at, field, list)
    ensures forall i | 0 <= i < |list| :: IsScalar(list[i])
    decreases |at|
  {
    var child := Child(j, at[0]).value;
    if at[0].Key? {
      ScalarListUnder(rules, j.fields, at[0].name);
    }
    if |at| == 1 {
      assert at[1..] == [] && Lookup(child, at[1..]) == Some(child);
    } else {
      assert at[1..][|at| - 2] == at[|at| - 1];
      RefListIsScalar(rules, child, at[1..], field, list);
    }
  }

  /** Popping the entries of one parent filters its list. */
  lemma PoppedIsKept(rules: Rules, raw: Json, violations: seq<Found>, vs: seq<Violation>, p: Path)
    returns (field: string, list: seq<Json>)
    requires Reports(rules, raw, violations, vs) && AllListable(violations) && HasParent(violations, p)
    ensures RefList(rules, raw, p, field, list)
    ensures DistinctIndexes(Entries(violations, p)) && forall x | x in Entries(violations, p) :: Expected(list, x)
    ensures KeepFrom(list, IndexesOf(Entries(violations, p)), 0) == CleanKept(rules, field, list)
  {
    field, list := ParentIsList(rules, raw, violations, vs, p);
    ReportedOnce(rules, raw, violations, vs, p);
    RefListIsScalar(rules, raw, p, field, list);
    KeptScalars(rules, field, list, IndexesOf(Entries(violations, p)), 0);
    assert list[0..] == list;
  }

  function Handled(order: seq<Path>, k: nat): (r: set<Path>)
    requires k <= |order|
    ensures forall p :: p in r <==> p in order[..k]
  {
    set p | p in order[..k]
  }

  lemma HandledNext(order: seq<Path>, k: nat)
    requires k < |order|
    ensures Handled(order, k + 1) == Handled(order, k) + {order[k]}
  {
    assert order[..k + 1] == order[..k] + [order[k]];
  }

  /** The groups handled so far have their lists filtered. */
  ghost predicate Progress(rules: Rules, raw: Json, order: seq<Path>, k: nat, cur: Json)
    requires k <= |order|
  {
    cur == Partly(rules, raw, [], Handled(order, k)) && RefPaths(rules, Handled(order, k))
  }

  lemma FilterRoot(rules: Rules, raw: Json, p: Path, field: string, list: seq<Json>, done: set<Path>)
    requires UniqueKeys(raw) && ScalarLists(rules, raw) && RefPaths(rules, done)
    requires RefList(rules, raw, p, field, list) && p !in done
    ensures Lookup(Partly(rules, raw, [], done), p) == Some(Arr(list))
    ensures SetAt(Partly(rules, raw, [], done), p, Arr(CleanKept(rules, field, list))) ==
              Partly(rules, raw, [], done + {p})
  {
    assert [] + p == p;
    FilterOne(rules, raw, [], p, field, list, done);
  }

  lemma MorePaths(rules: Rules, raw: Json, p: Path, field: string, list: seq<Json>, done: set<Path>)
    requires RefPaths(rules, done) && RefList(rules, raw, p, field, list)
    ensures RefPaths(rules, done + {p})
  {
  }

  lemma ProgressStep(rules: Rules, raw: Json, order: seq<Path>, k: nat, cur: Json, field: string, list: seq<Json>)
    requires k < |order| && Progress(rules, raw, order, k, cur) && order[k] !in order[..k]
    requires UniqueKeys(raw) && ScalarLists(rules, raw) && RefList(rules, raw, order[k], field, list)
    ensures Lookup(cur, order[k]) == Some(Arr(list))
    ensures Progress(rules, raw, order, k + 1, SetAt(cur, order[k], Arr(CleanKept(rules, field, list))))
  {
    var p := order[k];
    FilterRoot(rules, raw, p, field, list, Handled(order, k));
    MorePaths(rules, raw, p, field, list, Handled(order, k));
    HandledNext(order, k);
  }

  lemma NextGroupFiltered(rules: Rules, raw: Json, violations: seq<Found>, vs: seq<Violation>, g: Groups, k: nat,
                          cur: Json)
    returns (list: seq<Json>)
    requires Reports(rules, raw, violations, vs) && AllListable(violations) && Grouped(g, violations)
    requires k < |g.order| && Progress(rules, raw, g.order, k, cur)
    ensures var p := g.order[k];
            && p in g.entries && Lookup(cur, p) == Some(Arr(list))
            && DistinctIndexes(g.entries[p]) && (forall x | x in g.entries[p] :: Expected(list, x))
            && Progress(rules, raw, g.order, k + 1, SetAt(cur, p, Arr(KeepFrom(list, IndexesOf(g.entries[p]), 0))))
  {
    var p, field := g.order[k], "";
    assert p in g.order && p in g.entries && HasParent(violations, p);
    field, list := PoppedIsKept(rules, raw, violations, vs, p);
    ProgressStep(rules, raw, g.order, k, cur, field, list);
  }

  lemma Finished(rules: Rules, raw: Json, violations: seq<Found>, vs: seq<Violation>, g: Groups, cur: Json)
    requires Reports(rules, raw, violations, vs) && AllListable(violations) && Grouped(g, violations)
    requires Progress(rules, raw, g.order, |g.order|, cur)
    ensures cur == Clean(rules, raw)
  {
    var done := Handled(g.order, |g.order|);
    assert g.order[..|g.order|] == g.order;
    forall v | v in Unknown(rules, raw, []) ensures ListedIn(v, done) {
      assert v in vs;
      var k :| 0 <= k < |vs| && vs[k] == v;
      StoredPath(rules, raw, violations, vs, k);
      assert violations[k] in violations;
      assert HasParent(violations, ParentOf(violations[k]));
    }
    AllDone(rules, raw, [], done);
  }

  /** `_remove_unknown_reference_list_items`. Given the violations of a payload, it refuses
      exactly when one of them is not a list item; otherwise it deletes exactly the listed
      items, and what it returns has nothing unknown and is left alone by the filter. */
  method RemoveUnknownListItems(raw: Json, violations: seq<Found>, ghost rules: Rules, ghost vs: seq<Violation>)
    returns (r: Option<Json>)
    ensures !raw.Obj? ==> r == None
    ensures raw.Obj? && Reports(rules, raw, violations, vs) ==>
              r == if forall v | v in Unknown(rules, raw, []) :: IsListItem(v) then Some(Clean(rules, raw)) else None
    ensures raw.Obj? && Reports(rules, raw, violations, vs) && r.Some? ==>
              Unknown(rules, r.value, []) == [] && Clean(rules, r.value) == r.value
  {
    if !raw.Obj? {
      return None;
    }
    ghost var known := Reports(rules, raw, violations, vs);
    var groups := GroupByParent(violations);
    if known {
      ListableIff(rules, raw, violations, vs);
    }
    if groups == None {
      return None;
    }
    var g, normalized := groups.value, raw;
    NothingDone(rules, raw, []);
    assert Handled(g.order, 0) == {};
    for k := 0 to |g.order|
      invariant known ==> Progress(rules, raw, g.order, k, normalized)
    {
      var parent := g.order[k];
      ghost var list;
      if known {
        list := NextGroupFiltered(rules, raw, violations, vs, g, k, normalized);
      }
      var found := Lookup(normalized, parent);
      if found == None || !found.value.Arr? {
        return None;
      }
      var popped := PopListed(found.value.items, g.entries[parent]);
      if popped == None {
        return None;
      }
      normalized := SetAt(normalized, parent, Arr(popped.value));
    }
    if known {
      Finished(rules, raw, violations, vs, g, normalized);
      CleanHasNoUnknown(rules, raw, []);
      CleanIdempotent(rules, raw);
    }
    return Some(normalized);
  }

  function PrintedAll(vs: seq<Violation>): (r: seq<Found>)
    ensures |r| == |vs| && forall k | 0 <= k < |vs| :: r[k] == Printed(vs[k])
  {
    seq(|vs|, k requires 0 <= k < |vs| => Printed(vs[k]))
  }

  /** What the check reports is what the repair expects, whatever the payload of plain names
      and scalar reference lists. */
  lemma CheckFeedsRepair(rules: Rules, raw: Json)
    requires UniqueKeys(raw) && PlainNames(raw) && ScalarLists(rules, raw)
    ensures Reports(rules, raw, PrintedAll(Unknown(rules, raw, [])), Unknown(rules, raw, []))
  {
    ReportsOnce(rules, raw, []);
  }
}
