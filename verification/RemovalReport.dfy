/** Where the filtered view reports what it removed, against where the check reports it
    (conclusion/validator.py, `unknown_reference_ids` and `canonical_decision_context_view`). */
module RemovalReport {
  import opened Json
  import opened PathText
  import opened References

  /** Nothing unknown stands inside an item that follows a removed one. */
  predicate InPlace(rules: Rules, field: string, items: seq<Json>) {
    forall a, i | 0 <= a < i < |items| && Bad(rules, field, items[a]) :: Unknown(rules, items[i], []) == []
  }

  /** Every list of the value, at any depth, is so. */
  predicate Unshifted(rules: Rules, j: Json)
    decreases j, 0
  {
    match j
    case Obj(fs) => UnshiftedFields(rules, fs)
    case Arr(items) => forall i | 0 <= i < |items| :: Unshifted(rules, items[i])
    case _ => true
  }

  predicate UnshiftedFields(rules: Rules, fs: Fields)
    decreases fs, 0
  {
    match fs
    case Empty => true
    case Field(k, v, rest) =>
      (v.Arr? ==> InPlace(rules, k, v.items)) && Unshifted(rules, v) && UnshiftedFields(rules, rest)
  }

  // ---- both walks report the same number ----

  lemma {:induction false} SameFound(rules: Rules, field: string, items: seq<Json>, at: Path, bt: Path, index: nat)
    requires index <= |items|
    ensures |FindInItems(rules, field, items, at, index)| == |FindInItems(rules, field, items, bt, index)|
    decreases |items| - index
  {
    if index < |items| {
      SameFound(rules, field, items, at, bt, index + 1);
    }
  }

  lemma {:induction false} SameNumber(rules: Rules, j: Json, at: Path, bt: Path)
    ensures |Removed(rules, j, at)| == |Unknown(rules, j, bt)|
    decreases j, 1
  {
    match j
    case Obj(fs) => SameInFields(rules, fs, at, bt);
    case Arr(items) => SameInItems(rules, items, at, bt, 0);
    case _ =>
  }

  lemma {:induction false} SameInFields(rules: Rules, fs: Fields, at: Path, bt: Path)
    ensures |RemovedInFields(rules, fs, at)| == |UnknownInFields(rules, fs, bt)|
    decreases fs, 0
  {
    if fs.Field? {
      SameInFields(rules, fs.rest, at, bt);
      SameInField(rules, fs.key, fs.val, at + [Key(fs.key)], bt + [Key(fs.key)]);
    }
  }

  /** What the view reports about one field. */
  function RemovedInField(rules: Rules, field: string, v: Json, here: Path): seq<Violation> {
    if v.Arr? then FindInItems(rules, field, v.items, here) + RemovedInKept(rules, field, v.items, here)
    else if Bad(rules, field, v) then Find(rules, field, v, here)
    else Removed(rules, v, here)
  }

  lemma {:induction false} SameInField(rules: Rules, field: string, v: Json, here: Path, there: Path)
    ensures |RemovedInField(rules, field, v, here)|
         == |FindInField(rules, field, v, there)| + |Unknown(rules, v, there)|
    decreases v, 3
  {
    if v.Arr? {
      SameFound(rules, field, v.items, here, there, 0);
      SameInKept(rules, field, v.items, here, 0, there, 0);
      assert v.items[0..] == v.items;
    } else {
      SameNumber(rules, v, here, there);
    }
  }

  lemma {:induction false} SameInKept(rules: Rules, field: string, items: seq<Json>, at: Path, kept: nat, bt: Path,
                                      index: nat)
    requires index <= |items|
    ensures |RemovedInKept(rules, field, items[index..], at, kept)| == |UnknownInItems(rules, items, bt, index)|
    decreases items, 2, |items| - index
  {
    if index < |items| {
      assert items[index..][1..] == items[index + 1..];
      if Bad(rules, field, items[index]) {
        SameInKept(rules, field, items, at, kept, bt, index + 1);
      } else {
        assert items decreases to items[index];
        SameNumber(rules, items[index], at + [Index(kept)], bt + [Index(index)]);
        SameInKept(rules, field, items, at, kept + 1, bt, index + 1);
      }
    }
  }

  lemma {:induction false} SameInItems(rules: Rules, items: seq<Json>, at: Path, bt: Path, index: nat)
    requires index <= |items|
    ensures |RemovedInItems(rules, items, at, index)| == |UnknownInItems(rules, items, bt, index)|
    decreases items, 0, |items| - index
  {
    if index < |items| {
      assert items decreases to items[index];
      SameNumber(rules, items[index], at + [Index(index)], bt + [Index(index)]);
      SameInItems(rules, items, at, bt, index + 1);
    }
  }

  // ---- both report below the value they walk ----

  predicate Under(vs: seq<Violation>, at: Path) {
    forall i | 0 <= i < |vs| :: at <= vs[i].at
  }

  lemma UnderCat(a: seq<Violation>, b: seq<Violation>, at: Path)
    requires Under(a, at) && Under(b, at)
    ensures Under(a + b, at)
  {
  }

  lemma UnderStep(vs: seq<Violation>, at: Path, step: Step)
    requires Under(vs, at + [step])
    ensures Under(vs, at)
  {
    forall i | 0 <= i < |vs| ensures at <= vs[i].at {
      assert at <= at + [step] <= vs[i].at;
    }
  }

  lemma {:induction false} FoundUnder(rules: Rules, field: string, items: seq<Json>, at: Path, index: nat)
    requires index <= |items|
    ensures Under(FindInItems(rules, field, items, at, index), at)
    decreases |items| - index
  {
    if index < |items| {
      FoundUnder(rules, field, items, at, index + 1);
    }
  }

  lemma {:induction false} UnknownUnder(rules: Rules, j: Json, at: Path)
    ensures Under(Unknown(rules, j, at), at)
    decreases j, 1
  {
    match j
    case Obj(fs) => UnknownFieldsUnder(rules, fs, at);
    case Arr(items) => UnknownItemsUnder(rules, items, at, 0);
    case _ =>
  }

  lemma {:induction false} UnknownFieldsUnder(rules: Rules, fs: Fields, at: Path)
    ensures Under(UnknownInFields(rules, fs, at), at)
    decreases fs, 0
  {
    if fs.Field? {
      var here := at + [Key(fs.key)];
      var own, below := FindInField(rules, fs.key, fs.val, here), Unknown(rules, fs.val, here);
      if fs.val.Arr? {
        FoundUnder(rules, fs.key, fs.val.items, here, 0);
      }
      UnknownUnder(rules, fs.val, here);
      UnderCat(own, below, here);
      UnderStep(own + below, at, Key(fs.key));
      UnknownFieldsUnder(rules, fs.rest, at);
      UnderCat(own + below, UnknownInFields(rules, fs.rest, at), at);
    }
  }

  lemma {:induction false} UnknownItemsUnder(rules: Rules, items: seq<Json>, at: Path, index: nat)
    requires index <= |items|
    ensures Under(UnknownInItems(rules, items, at, index), at)
    decreases items, 0, |items| - index
  {
    if index < |items| {
      assert items decreases to items[index];
      UnknownUnder(rules, items[index], at + [Index(index)]);
      UnderStep(Unknown(rules, items[index], at + [Index(index)]), at, Index(index));
      UnknownItemsUnder(rules, items, at, index + 1);
    }
  }

  lemma {:induction false} RemovedUnder(rules: Rules, j: Json, at: Path)
    ensures Under(Removed(rules, j, at), at)
    decreases j, 1
  {
    match j
    case Obj(fs) => RemovedFieldsUnder(rules, fs, at);
    case Arr(items) => RemovedItemsUnder(rules, items, at, 0);
    case _ =>
  }

  lemma {:induction false} RemovedFieldsUnder(rules: Rules, fs: Fields, at: Path)
    ensures Under(RemovedInFields(rules, fs, at), at)
    decreases fs, 0
  {
    if fs.Field? {
      var here := at + [Key(fs.key)];
      if fs.val.Arr? {
        FoundUnder(rules, fs.key, fs.val.items, here, 0);
        RemovedKeptUnder(rules, fs.key, fs.val.items, here, 0);
        UnderCat(FindInItems(rules, fs.key, fs.val.items, here),
                 RemovedInKept(rules, fs.key, fs.val.items, here), here);
      } else {
        RemovedUnder(rules, fs.val, here);
      }
      UnderStep(RemovedInField(rules, fs.key, fs.val, here), at, Key(fs.key));
      RemovedFieldsUnder(rules, fs.rest, at);
      UnderCat(RemovedInField(rules, fs.key, fs.val, here), RemovedInFields(rules, fs.rest, at), at);
    }
  }

  lemma {:induction false} RemovedKeptUnder(rules: Rules, field: string, items: seq<Json>, at: Path, kept: nat)
    ensures Under(RemovedInKept(rules, field, items, at, kept), at)
    decreases items, 0
  {
    if items != [] {
      if Bad(rules, field, items[0]) {
        RemovedKeptUnder(rules, field, items[1..], at, kept);
      } else {
        assert items decreases to items[0];
        RemovedUnder(rules, items[0], at + [Index(kept)]);
        UnderStep(Removed(rules, items[0], at + [Index(kept)]), at, Index(kept));
        RemovedKeptUnder(rules, field, items[1..], at, kept + 1);
      }
    }
  }

  lemma {:induction false} RemovedItemsUnder(rules: Rules, items: seq<Json>, at: Path, index: nat)
    requires index <= |items|
    ensures Under(RemovedInItems(rules, items, at, index), at)
    decreases items, 0, |items| - index
  {
    if index < |items| {
      assert items decreases to items[index];
      RemovedUnder(rules, items[index], at + [Index(index)]);
      UnderStep(Removed(rules, items[index], at + [Index(index)]), at, Index(index));
      RemovedItemsUnder(rules, items, at, index + 1);
    }
  }

  // ---- the reports are equal exactly when no list shifts ----

  lemma CatsEqual(a: seq<Violation>, b: seq<Violation>, c: seq<Violation>, d: seq<Violation>)
    requires |a| == |c|
    ensures a + b == c + d <==> a == c && b == d
  {
    if a + b == c + d {
      assert a == (a + b)[..|a|] && c == (c + d)[..|c|];
      assert b == (a + b)[|a|..] && d == (c + d)[|c|..];
    }
  }

  lemma StepOf(at: Path, step: Step, p: Path)
    requires at + [step] <= p
    ensures |at| < |p| && p[|at|] == step
  {
    assert (at + [step])[|at|] == step;
  }

  /** Reports about an item that moved differ from those about it in its place. */
  lemma MovedDiffers(vs: seq<Violation>, ws: seq<Violation>, at: Path, kept: nat, index: nat)
    requires Under(vs, at + [Index(kept)]) && Under(ws, at + [Index(index)]) && kept != index
    requires vs != [] && ws != []
    ensures vs != ws
  {
    StepOf(at, Index(kept), vs[0].at);
    StepOf(at, Index(index), ws[0].at);
  }

  /** The view reports exactly what the check reports, at the same positions, if and only if
      nothing unknown stands inside an item that follows a removed one in its list. */
  lemma {:induction false} RemovedIsUnknownIff(rules: Rules, j: Json, at: Path)
    ensures Removed(rules, j, at) == Unknown(rules, j, at) <==> Unshifted(rules, j)
    decreases j, 1
  {
    match j
    case Obj(fs) => RemovedFieldsIff(rules, fs, at);
    case Arr(items) => RemovedItemsIff(rules, items, at, 0);
    case _ =>
  }

  lemma {:induction false} RemovedFieldsIff(rules: Rules, fs: Fields, at: Path)
    ensures RemovedInFields(rules, fs, at) == UnknownInFields(rules, fs, at) <==> UnshiftedFields(rules, fs)
    decreases fs, 0
  {
    if fs.Field? {
      var here := at + [Key(fs.key)];
      RemovedFieldsIff(rules, fs.rest, at);
      RemovedFieldIff(rules, fs.key, fs.val, here);
      SameInField(rules, fs.key, fs.val, here, here);
      CatsEqual(RemovedInField(rules, fs.key, fs.val, here), RemovedInFields(rules, fs.rest, at),
                FindInField(rules, fs.key, fs.val, here) + Unknown(rules, fs.val, here),
                UnknownInFields(rules, fs.rest, at));
    }
  }

  lemma {:induction false} RemovedFieldIff(rules: Rules, field: string, v: Json, here: Path)
    ensures RemovedInField(rules, field, v, here) == FindInField(rules, field, v, here) + Unknown(rules, v, here)
            <==> (v.Arr? ==> InPlace(rules, field, v.items)) && Unshifted(rules, v)
    decreases v, 3
  {
    if v.Arr? {
      assert v.items[0..] == v.items;
      RemovedKeptIff(rules, field, v.items, here, 0, 0);
      CatsEqual(FindInItems(rules, field, v.items, here), RemovedInKept(rules, field, v.items, here),
                FindInItems(rules, field, v.items, here), Unknown(rules, v, here));
    } else {
      RemovedIsUnknownIff(rules, v, here);
    }
  }

  /** From `index` on the items and those behind them are in place. */
  predicate InPlaceFrom(rules: Rules, field: string, items: seq<Json>, index: nat) {
    && (forall i | index <= i < |items| :: Unshifted(rules, items[i]))
    && (forall a, i | 0 <= a < i && index <= i < |items| && Bad(rules, field, items[a]) ::
          Unknown(rules, items[i], []) == [])
  }

  /** Items moved exactly when one before them was removed. */
  predicate Moved(rules: Rules, field: string, items: seq<Json>, index: nat) {
    exists a :: 0 <= a < index && a < |items| && Bad(rules, field, items[a])
  }

  lemma {:induction false} RemovedKeptIff(rules: Rules, field: string, items: seq<Json>, at: Path, kept: nat,
                                          index: nat)
    requires kept <= index <= |items| && (kept < index <==> Moved(rules, field, items, index))
    ensures RemovedInKept(rules, field, items[index..], at, kept) == UnknownInItems(rules, items, at, index)
            <==> InPlaceFrom(rules, field, items, index)
    decreases items, 2, |items| - index
  {
    if index < |items| {
      assert items[index..][1..] == items[index + 1..];
      MovedNext(rules, field, items, index);
      if Bad(rules, field, items[index]) {
        RemovedKeptIff(rules, field, items, at, kept, index + 1);
      } else {
        RemovedKeptIff(rules, field, items, at, kept + 1, index + 1);
        RemovedItemIff(rules, field, items, at, kept, index);
        SameNumber(rules, items[index], at + [Index(kept)], at + [Index(index)]);
        CatsEqual(Removed(rules, items[index], at + [Index(kept)]),
                  RemovedInKept(rules, field, items[index + 1..], at, kept + 1),
                  Unknown(rules, items[index], at + [Index(index)]), UnknownInItems(rules, items, at, index + 1));
      }
      InPlaceNext(rules, field, items, index);
    }
  }

  lemma MovedNext(rules: Rules, field: string, items: seq<Json>, index: nat)
    requires index < |items|
    ensures Moved(rules, field, items, index + 1)
            <==> Moved(rules, field, items, index) || Bad(rules, field, items[index])
  {
  }

  predicate ItemInPlace(rules: Rules, field: string, items: seq<Json>, index: nat)
    requires index < |items|
  {
    Unshifted(rules, items[index])
        && (Moved(rules, field, items, index) ==> Unknown(rules, items[index], []) == [])
  }

  lemma InPlaceNext(rules: Rules, field: string, items: seq<Json>, index: nat)
    requires index < |items|
    ensures InPlaceFrom(rules, field, items, index)
            <==> ItemInPlace(rules, field, items, index) && InPlaceFrom(rules, field, items, index + 1)
  {
  }

  lemma {:induction false} RemovedItemIff(rules: Rules, field: string, items: seq<Json>, at: Path, kept: nat,
                                          index: nat)
    requires kept <= index < |items| && (kept < index <==> Moved(rules, field, items, index))
    ensures Removed(rules, items[index], at + [Index(kept)]) == Unknown(rules, items[index], at + [Index(index)])
            <==> ItemInPlace(rules, field, items, index)
    decreases items, 1
  {
    var item, here, there := items[index], at + [Index(index)], at + [Index(kept)];
    assert items decreases to item;
    RemovedIsUnknownIff(rules, item, here);
    SameNumber(rules, item, there, here);
    SameNumber(rules, item, there, []);
    SameNumber(rules, item, here, []);
    if kept < index && Unknown(rules, item, here) != [] {
      RemovedUnder(rules, item, there);
      UnknownUnder(rules, item, here);
      MovedDiffers(Removed(rules, item, there), Unknown(rules, item, here), at, kept, index);
    }
  }

  lemma {:induction false} RemovedItemsIff(rules: Rules, items: seq<Json>, at: Path, index: nat)
    requires index <= |items|
    ensures RemovedInItems(rules, items, at, index) == UnknownInItems(rules, items, at, index)
            <==> forall i | index <= i < |items| :: Unshifted(rules, items[i])
    decreases items, 0, |items| - index
  {
    if index < |items| {
      var here := at + [Index(index)];
      assert items decreases to items[index];
      RemovedIsUnknownIff(rules, items[index], here);
      RemovedItemsIff(rules, items, at, index + 1);
      SameNumber(rules, items[index], here, here);
      CatsEqual(Removed(rules, items[index], here), RemovedInItems(rules, items, at, index + 1),
                Unknown(rules, items[index], here), UnknownInItems(rules, items, at, index + 1));
    }
  }

  // ---- a common case, and one that fails ----

  lemma {:induction false} ScalarIsUnshifted(rules: Rules, j: Json)
    requires ScalarLists(rules, j)
    ensures Unshifted(rules, j)
    decreases j, 1
  {
    match j
    case Obj(fs) => ScalarFieldsUnshifted(rules, fs);
    case Arr(items) =>
      forall i | 0 <= i < |items| ensures Unshifted(rules, items[i]) {
        assert items decreases to items[i];
        ScalarIsUnshifted(rules, items[i]);
      }
    case _ =>
  }

  lemma {:induction false} ScalarFieldsUnshifted(rules: Rules, fs: Fields)
    requires ScalarListsIn(rules, fs)
    ensures UnshiftedFields(rules, fs)
    decreases fs, 0
  {
    if fs.Field? {
      ScalarIsUnshifted(rules, fs.val);
      ScalarFieldsUnshifted(rules, fs.rest);
    }
  }

  /** Without nested structure in reference lists, the view removes exactly the references
      that the check of the input reports, at the positions it reports. */
  lemma RemovedIsUnknown(rules: Rules, j: Json, at: Path)
    requires ScalarLists(rules, j)
    ensures Removed(rules, j, at) == Unknown(rules, j, at)
  {
    ScalarIsUnshifted(rules, j);
    RemovedIsUnknownIff(rules, j, at);
  }

  /** With a list of objects under a reference field the positions do differ: what follows a
      removed item is reported one place earlier than it stands in the input. */
  lemma ShiftedReport(rules: Rules)
    requires rules.kindOf("claim_ids") == Some(CLAIM) && rules.allow == map[CLAIM := {}]
    ensures var j := Obj(Field("claim_ids", Arr([Str("x"), Obj(Field("claim_ids", Str("y"), Empty))]), Empty));
            && Unknown(rules, j, [])[1].at == [Key("claim_ids"), Index(1), Key("claim_ids")]
            && Removed(rules, j, [])[1].at == [Key("claim_ids"), Index(0), Key("claim_ids")]
  {
    var inner := Obj(Field("claim_ids", Str("y"), Empty));
    var items := [Str("x"), inner];
    var at := [Key("claim_ids")];
    assert [] + [Key("claim_ids")] == at;
    assert items[1..] == [inner] && [inner][1..] == [];
    assert Removed(rules, inner, at + [Index(0)]) == [Violation(CLAIM, "y", at + [Index(0)] + [Key("claim_ids")])];
    assert Unknown(rules, inner, at + [Index(1)]) == [Violation(CLAIM, "y", at + [Index(1)] + [Key("claim_ids")])];
    assert FindInItems(rules, "claim_ids", items, at, 1) == [];
    assert FindInItems(rules, "claim_ids", items, at) == [Violation(CLAIM, "x", at + [Index(0)])];
    assert Unknown(rules, items[0], at + [Index(0)]) == [];
    assert UnknownInItems(rules, items, at, 2) == [];
    assert RemovedInKept(rules, "claim_ids", items[1..], at, 0)
        == Removed(rules, inner, at + [Index(0)]) + RemovedInKept(rules, "claim_ids", [], at, 1);
  }
}
