/** The two schema walkers, `_walk_schema` (common/structured_outputs.py) and
    `_walk_schema_nodes` (common/provider_schema_compatibility.py): one recursion over
    different keyword tables. */
module SchemaWalk {
  import opened Json
  import opened Pointer
  import Decimal

  // ---- the walk ----

  /** Which keywords hold a map of subschemas, one subschema, or a list of subschemas.
      `listItems` admits the list form of `items`. */
  datatype Slots = Slots(maps: seq<string>, singles: seq<string>, arrays: seq<string>, listItems: bool) {
    function All(): seq<string> {
      maps + singles + arrays
    }

    predicate IsList(keyword: string) {
      keyword in arrays || (listItems && keyword == "items")
    }

    predicate Plain() {
      forall k | k in All() :: '/' !in k && '~' !in k
    }
  }

  /** A subschema with the path suffix that leads to it. `plain` is false when the
      suffix goes through a list index, which a `$ref` cannot express here. */
  datatype Child = Child(suffix: string, plain: bool, node: Fields)

  function MemberChildren(keyword: string, members: Fields): (r: seq<Child>)
    ensures forall c | c in r :: (members decreases to c.node)
    ensures forall name | Get(members, name).Some? && Get(members, name).value.Obj? ::
              exists c :: c in r && c.node == Get(members, name).value.fields
  {
    match members
    case Empty => []
    case Field(name, val, rest) =>
      var tail := MemberChildren(keyword, rest);
      if val.Obj? then
        var c := Child("/" + keyword + "/" + Escape(name), true, val.fields);
        var r := [c] + tail;
        assert c in r && forall d | d in tail :: d in r;
        r
      else tail
  }

  function ItemChildren(keyword: string, items: seq<Json>, index: nat := 0): (r: seq<Child>)
    requires index <= |items|
    ensures forall c | c in r :: !c.plain && (items decreases to c.node)
    ensures forall i | index <= i < |items| && items[i].Obj? :: exists c :: c in r && c.node == items[i].fields
    decreases |items| - index
  {
    if index == |items| then []
    else
      var tail := ItemChildren(keyword, items, index + 1);
      if items[index].Obj? then
        assert items decreases to items[index];
        var c := Child("/" + keyword + "/" + Decimal.ToString(index), false, items[index].fields);
        var r := [c] + tail;
        assert c in r && forall d | d in tail :: d in r;
        r
      else tail
  }

  /** The subschemas one keyword contributes to `_iter_schema_children`. */
  function ChildrenOf(slots: Slots, fs: Fields, keyword: string): (r: seq<Child>)
    ensures forall c | c in r :: (fs decreases to c.node)
  {
    match Get(fs, keyword)
    case Some(Obj(members)) =>
      if keyword in slots.maps then MemberChildren(keyword, members)
      else if keyword in slots.singles then [Child("/" + keyword, true, members)]
      else []
    case Some(Arr(items)) =>
      if slots.IsList(keyword) then ItemChildren(keyword, items) else []
    case _ => []
  }

  function ChildrenOfAll(slots: Slots, fs: Fields, keywords: seq<string>): (r: seq<Child>)
    ensures forall c | c in r :: (fs decreases to c.node)
    ensures forall k, c | k in keywords && c in ChildrenOf(slots, fs, k) :: c in r
    ensures forall c | c in r :: exists k :: k in keywords && c in ChildrenOf(slots, fs, k)
  {
    if keywords == [] then [] else ChildrenOf(slots, fs, keywords[0]) + ChildrenOfAll(slots, fs, keywords[1..])
  }

  /** The subschemas of a node in walking order. */
  function IterChildren(slots: Slots, fs: Fields): (r: seq<Child>)
    ensures forall c | c in r :: (fs decreases to c.node)
  {
    ChildrenOfAll(slots, fs, slots.All())
  }

  datatype Entry = Entry(path: string, plain: bool, node: Fields)

  ghost predicate AllBelow(owner: Fields, children: seq<Child>) {
    forall c | c in children :: (owner decreases to c.node)
  }

  /** Every schema node, parents first, with its printed path. */
  function Walk(slots: Slots, fs: Fields, path: string, plain: bool): (r: seq<Entry>)
    decreases fs, 0
  {
    [Entry(path, plain, fs)] + WalkAll(slots, fs, IterChildren(slots, fs), path, plain)
  }

  function WalkAll(slots: Slots, owner: Fields, children: seq<Child>, path: string, plain: bool): (r: seq<Entry>)
    requires AllBelow(owner, children)
    decreases owner, 0, |children|
  {
    if children == [] then []
    else
      var c := children[0];
      Walk(slots, c.node, path + c.suffix, plain && c.plain) + WalkAll(slots, owner, children[1..], path, plain)
  }

  /** The nodes the walk visits. */
  function Nodes(slots: Slots, fs: Fields): set<Fields> {
    set e | e in Walk(slots, fs, "$", true) :: e.node
  }

  lemma {:induction false} WalkAllHas(slots: Slots, owner: Fields, children: seq<Child>, path: string, plain: bool,
                                      c: Child)
    requires AllBelow(owner, children)
    requires c in children
    ensures forall e | e in Walk(slots, c.node, path + c.suffix, plain && c.plain) ::
              e in WalkAll(slots, owner, children, path, plain)
    decreases |children|
  {
    if c != children[0] {
      WalkAllHas(slots, owner, children[1..], path, plain, c);
    }
  }

  lemma {:induction false} WalkAllFrom(slots: Slots, owner: Fields, children: seq<Child>, path: string, plain: bool,
                                       e: Entry) returns (c: Child)
    requires AllBelow(owner, children)
    requires e in WalkAll(slots, owner, children, path, plain)
    ensures c in children && e in Walk(slots, c.node, path + c.suffix, plain && c.plain)
    decreases |children|
  {
    c := children[0];
    if e !in Walk(slots, c.node, path + c.suffix, plain && c.plain) {
      c := WalkAllFrom(slots, owner, children[1..], path, plain, e);
    }
  }

  /** Every visited node has its children visited too, whatever the starting path. */
  lemma {:induction false} WalkClosed(slots: Slots, fs: Fields, path: string, plain: bool, e: Entry, c: Child)
    requires e in Walk(slots, fs, path, plain) && c in IterChildren(slots, e.node)
    ensures exists d :: d in Walk(slots, fs, path, plain) && d.node == c.node
    decreases fs
  {
    if e == Entry(path, plain, fs) {
      WalkAllHas(slots, fs, IterChildren(slots, fs), path, plain, c);
      var d := Entry(path + c.suffix, plain && c.plain, c.node);
      assert d in Walk(slots, c.node, path + c.suffix, plain && c.plain);
      assert d in Walk(slots, fs, path, plain);
    } else {
      var k := WalkAllFrom(slots, fs, IterChildren(slots, fs), path, plain, e);
      WalkClosed(slots, k.node, path + k.suffix, plain && k.plain, e, c);
      var d :| d in Walk(slots, k.node, path + k.suffix, plain && k.plain) && d.node == c.node;
      WalkAllHas(slots, fs, IterChildren(slots, fs), path, plain, k);
      assert d in Walk(slots, fs, path, plain);
    }
  }

  lemma NodesClosed(slots: Slots, root: Fields, n: Fields, c: Child)
    requires n in Nodes(slots, root) && c in IterChildren(slots, n)
    ensures c.node in Nodes(slots, root)
  {
    var e :| e in Walk(slots, root, "$", true) && e.node == n;
    WalkClosed(slots, root, "$", true, e, c);
  }

  // ---- distinct keys ----

  lemma {:induction false} MemberIsUnique(keyword: string, members: Fields, c: Child)
    requires UniqueFields(members) && c in MemberChildren(keyword, members)
    ensures UniqueFields(c.node)
  {
    if c in MemberChildren(keyword, members.rest) {
      MemberIsUnique(keyword, members.rest, c);
    }
  }

  lemma {:induction false} ItemIsUnique(keyword: string, items: seq<Json>, index: nat, c: Child)
    requires index <= |items| && c in ItemChildren(keyword, items, index)
    requires forall i | 0 <= i < |items| :: UniqueKeys(items[i])
    ensures UniqueFields(c.node)
    decreases |items| - index
  {
    if c in ItemChildren(keyword, items, index + 1) {
      ItemIsUnique(keyword, items, index + 1, c);
    }
  }

  lemma ChildIsUnique(slots: Slots, fs: Fields, c: Child)
    requires UniqueFields(fs) && c in IterChildren(slots, fs)
    ensures UniqueFields(c.node)
  {
    var keyword :| keyword in slots.All() && c in ChildrenOf(slots, fs, keyword);
    UniqueGet(fs, keyword);
    match Get(fs, keyword).value
    case Obj(members) =>
      if keyword in slots.maps {
        MemberIsUnique(keyword, members, c);
      }
    case Arr(items) => ItemIsUnique(keyword, items, 0, c);
    case _ =>
  }

  lemma {:induction false} WalkIsUnique(slots: Slots, fs: Fields, path: string, plain: bool, e: Entry)
    requires UniqueFields(fs) && e in Walk(slots, fs, path, plain)
    ensures UniqueFields(e.node)
    decreases fs
  {
    if e != Entry(path, plain, fs) {
      var c := WalkAllFrom(slots, fs, IterChildren(slots, fs), path, plain, e);
      ChildIsUnique(slots, fs, c);
      WalkIsUnique(slots, c.node, path + c.suffix, plain && c.plain, e);
    }
  }

  /** Every visited node of a schema with distinct keys has distinct keys. */
  lemma NodesAreUnique(slots: Slots, root: Fields, n: Fields)
    requires UniqueFields(root) && n in Nodes(slots, root)
    ensures UniqueFields(n)
  {
    var e :| e in Walk(slots, root, "$", true) && e.node == n;
    WalkIsUnique(slots, root, "$", true, e);
  }

  lemma RootIsVisited(slots: Slots, root: Fields)
    ensures root in Nodes(slots, root)
  {
    assert Entry("$", true, root) in Walk(slots, root, "$", true);
  }

  lemma MapChildVisited(slots: Slots, root: Fields, n: Fields, keyword: string, ms: Fields, name: string)
    requires n in Nodes(slots, root) && keyword in slots.maps && Get(n, keyword) == Some(Obj(ms))
    requires Has(ms, name) && Get(ms, name).value.Obj?
    ensures Get(ms, name).value.fields in Nodes(slots, root)
  {
    var cs := MemberChildren(keyword, ms);
    var c :| c in cs && c.node == Get(ms, name).value.fields;
    assert keyword in slots.All();
    assert c in ChildrenOf(slots, n, keyword);
    NodesClosed(slots, root, n, c);
  }

  lemma SingleChildVisited(slots: Slots, root: Fields, n: Fields, keyword: string, sub: Fields)
    requires n in Nodes(slots, root) && keyword in slots.singles && keyword !in slots.maps
    requires Get(n, keyword) == Some(Obj(sub))
    ensures sub in Nodes(slots, root)
  {
    var c := Child("/" + keyword, true, sub);
    assert keyword in slots.All();
    assert c in ChildrenOf(slots, n, keyword);
    NodesClosed(slots, root, n, c);
  }

  lemma ListChildVisited(slots: Slots, root: Fields, n: Fields, keyword: string, items: seq<Json>, i: nat)
    requires n in Nodes(slots, root) && keyword in slots.arrays && Get(n, keyword) == Some(Arr(items))
    requires i < |items| && items[i].Obj?
    ensures items[i].fields in Nodes(slots, root)
  {
    var cs := ItemChildren(keyword, items);
    var c :| c in cs && c.node == items[i].fields;
    assert keyword in slots.All();
    assert c in ChildrenOf(slots, n, keyword);
    NodesClosed(slots, root, n, c);
  }

  // ---- printed paths are pointers ----

  lemma PrintOne(a: string)
    ensures Print([a]) == "/" + Escape(a)
  {
    var e := Escape(a);
    assert EscapeAll([a]) == [e];
    assert Join([e]) == "/" + e + Join([e][1..]);
    assert [e][1..] == [];
    assert Join([]) == "";
    assert "/" + e + "" == "/" + e;
  }

  lemma {:induction false} MemberIsNamed(keyword: string, members: Fields, c: Child)
    requires UniqueFields(members) && c in MemberChildren(keyword, members)
    ensures exists name :: Get(members, name) == Some(Obj(c.node)) && c.suffix == "/" + keyword + "/" + Escape(name)
  {
    var Field(name, val, rest) := members;
    if val.Obj? && c == Child("/" + keyword + "/" + Escape(name), true, val.fields) {
      assert Get(members, name) == Some(Obj(c.node));
    } else {
      MemberIsNamed(keyword, rest, c);
      var other :| Get(rest, other) == Some(Obj(c.node)) && c.suffix == "/" + keyword + "/" + Escape(other);
      assert Get(members, other) == Some(Obj(c.node));
    }
  }

  lemma MapChildStep(fs: Fields, keyword: string, members: Fields, c: Child) returns (names: seq<string>)
    requires UniqueFields(fs) && Get(fs, keyword) == Some(Obj(members)) && Escape(keyword) == keyword
    requires c in MemberChildren(keyword, members)
    ensures names != [] && c.suffix == Print(names)
    ensures Descend(Obj(fs), names) == Some(Obj(c.node))
    ensures UniqueFields(c.node)
  {
    UniqueGet(fs, keyword);
    MemberIsNamed(keyword, members, c);
    var name :| Get(members, name) == Some(Obj(c.node)) && c.suffix == "/" + keyword + "/" + Escape(name);
    UniqueGet(members, name);
    names := [keyword] + [name];
    PrintCat([keyword], [name]);
    PrintOne(keyword);
    PrintOne(name);
    DescendCat(Obj(fs), [keyword], [name]);
    assert [keyword][1..] == [] && [name][1..] == [];
  }

  lemma SingleChildStep(fs: Fields, keyword: string, c: Child)
    requires UniqueFields(fs) && Get(fs, keyword) == Some(Obj(c.node)) && Escape(keyword) == keyword
    requires c.suffix == "/" + keyword
    ensures c.suffix == Print([keyword])
    ensures Descend(Obj(fs), [keyword]) == Some(Obj(c.node))
    ensures UniqueFields(c.node)
  {
    UniqueGet(fs, keyword);
    PrintOne(keyword);
    assert [keyword][1..] == [];
  }

  lemma PlainChildOf(slots: Slots, fs: Fields, keyword: string, c: Child)
    requires c in ChildrenOf(slots, fs, keyword) && c.plain
    ensures Has(fs, keyword) && Get(fs, keyword).value.Obj?
    ensures keyword in slots.maps || keyword in slots.singles
    ensures if keyword in slots.maps then c in MemberChildren(keyword, Get(fs, keyword).value.fields)
            else c == Child("/" + keyword, true, Get(fs, keyword).value.fields)
  {
  }

  /** A child reached without a list index is one or two names below its parent. */
  lemma ChildSteps(slots: Slots, fs: Fields, c: Child) returns (names: seq<string>)
    requires slots.Plain() && UniqueFields(fs) && c in IterChildren(slots, fs) && c.plain
    ensures names != [] && c.suffix == Print(names)
    ensures Descend(Obj(fs), names) == Some(Obj(c.node))
    ensures UniqueFields(c.node)
  {
    var keyword :| keyword in slots.All() && c in ChildrenOf(slots, fs, keyword);
    PlainChildOf(slots, fs, keyword, c);
    if keyword in slots.maps {
      EscapePlain(keyword);
      names := MapChildStep(fs, keyword, Get(fs, keyword).value.fields, c);
    } else {
      EscapePlain(keyword);
      SingleChildStep(fs, keyword, c);
      names := [keyword];
    }
  }

  lemma StepBelow(slots: Slots, root: Json, fs: Fields, at: seq<string>, c: Child) returns (below: seq<string>)
    requires slots.Plain() && UniqueFields(fs) && c in IterChildren(slots, fs) && c.plain
    requires Descend(root, at) == Some(Obj(fs))
    ensures at <= below && "$" + Print(at) + c.suffix == "$" + Print(below)
    ensures Descend(root, below) == Some(Obj(c.node)) && UniqueFields(c.node)
  {
    var step := ChildSteps(slots, fs, c);
    PrintCat(at, step);
    DescendCat(root, at, step);
    below := at + step;
    assert "$" + Print(at) + c.suffix == "$" + (Print(at) + c.suffix);
  }

  lemma {:induction false} WalkPaths(slots: Slots, root: Json, fs: Fields, at: seq<string>, plain: bool, e: Entry)
      returns (names: seq<string>)
    requires slots.Plain() && UniqueFields(fs) && e in Walk(slots, fs, "$" + Print(at), plain) && e.plain
    requires Descend(root, at) == Some(Obj(fs))
    ensures plain && at <= names && e.path == "$" + Print(names)
    ensures Descend(root, names) == Some(Obj(e.node))
    decreases fs
  {
    if e == Entry("$" + Print(at), plain, fs) {
      names := at;
    } else {
      var c := WalkAllFrom(slots, fs, IterChildren(slots, fs), "$" + Print(at), plain, e);
      if c.plain {
        var below := StepBelow(slots, root, fs, at, c);
        names := WalkPaths(slots, root, c.node, below, plain && c.plain, e);
      } else {
        WalkIsPlain(slots, c.node, "$" + Print(at) + c.suffix, e);
      }
    }
  }

  lemma {:induction false} WalkIsPlain(slots: Slots, fs: Fields, path: string, e: Entry)
    requires e in Walk(slots, fs, path, false)
    ensures !e.plain
    decreases fs
  {
    if e != Entry(path, false, fs) {
      var c := WalkAllFrom(slots, fs, IterChildren(slots, fs), path, false, e);
      WalkIsPlain(slots, c.node, path + c.suffix, e);
    }
  }

  /** A path the walk prints, other than the root's and without a list index, read as a
      `#/` reference resolves to the very node it was printed for. */
  lemma WalkedPathResolves(slots: Slots, root: Fields, e: Entry)
    requires slots.Plain() && UniqueFields(root) && e in Walk(slots, root, "$", true)
    requires e.plain && e.path != "$"
    ensures |e.path| > 0 && IsLocal("#" + e.path[1..])
    ensures Resolve(Obj(root), "#" + e.path[1..]) == Some(Obj(e.node))
  {
    assert "$" == "$" + Print([]);
    var names := WalkPaths(slots, Obj(root), root, [], true, e);
    assert names != [];
    StepsOfPrinted(names);
    assert e.path[1..] == Print(names);
  }
}
