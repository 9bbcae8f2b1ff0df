/** JSON pointer escaping and resolution (sections 3 and 4 of RFC 6901) as
    common/structured_outputs.py implements them with string replacement. */
module Pointer {
  import opened Json

  /** `value.replace(c, with)` for a one-character pattern. */
  function ReplaceChar(s: string, c: char, with: string): string {
    if s == "" then "" else (if s[0] == c then with else [s[0]]) + ReplaceChar(s[1..], c, with)
  }

  /** `value.replace(a + b, with)`: leftmost, non-overlapping occurrences. */
  function ReplacePair(s: string, a: char, b: char, with: string): string {
    if s == "" then ""
    else if |s| >= 2 && s[0] == a && s[1] == b then with + ReplacePair(s[2..], a, b, with)
    else [s[0]] + ReplacePair(s[1..], a, b, with)
  }

  /** `_escape_json_pointer` and `_escape`. */
  function Escape(s: string): string {
    ReplaceChar(ReplaceChar(s, '~', "~0"), '/', "~1")
  }

  /** The inline decoding in `_resolve_local_ref` and `resolve`. */
  function Unescape(s: string): string {
    ReplacePair(ReplacePair(s, '~', '1', "/"), '~', '0', "~")
  }

  /** `s.split("/")`. */
  function Split(s: string): (parts: seq<string>)
    ensures |parts| >= 1
  {
    if s == "" then [""]
    else if s[0] == '/' then [""] + Split(s[1..])
    else
      var rest := Split(s[1..]);
      [[s[0]] + rest[0]] + rest[1..]
  }

  // ---- escaping is undone by the resolver's decoding ----

  lemma {:induction false} ReplaceCharCat(s: string, t: string, c: char, with: string)
    ensures ReplaceChar(s + t, c, with) == ReplaceChar(s, c, with) + ReplaceChar(t, c, with)
  {
    if s == "" {
      assert s + t == t;
    } else {
      ReplaceCharCat(s[1..], t, c, with);
      assert (s + t)[1..] == s[1..] + t;
    }
  }

  lemma EscapeStep(s: string)
    requires s != ""
    ensures Escape(s) == (if s[0] == '~' then "~0" else if s[0] == '/' then "~1" else [s[0]]) + Escape(s[1..])
  {
    var head := if s[0] == '~' then "~0" else [s[0]];
    ReplaceCharCat(head, ReplaceChar(s[1..], '~', "~0"), '/', "~1");
    assert ReplaceChar("~0", '/', "~1") == "~0" by {
      assert "~0"[1..] == "0";
      assert "0"[1..] == "";
    }
    assert [s[0]][1..] == "";
  }

  lemma {:induction false} UnescapeSlashes(s: string)
    ensures ReplacePair(Escape(s), '~', '1', "/") == ReplaceChar(s, '~', "~0")
  {
    if s != "" {
      EscapeStep(s);
      UnescapeSlashes(s[1..]);
      var e, r := Escape(s), Escape(s[1..]);
      if s[0] == '~' {
        assert e[1..] == "0" + r;
        assert ("0" + r)[1..] == r;
      } else if s[0] == '/' {
        assert e[2..] == r;
      } else {
        assert e[1..] == r;
      }
    }
  }

  lemma {:induction false} UnescapeTildes(s: string)
    ensures ReplacePair(ReplaceChar(s, '~', "~0"), '~', '0', "~") == s
  {
    if s != "" {
      UnescapeTildes(s[1..]);
      var e, r := ReplaceChar(s, '~', "~0"), ReplaceChar(s[1..], '~', "~0");
      if s[0] == '~' {
        assert e[2..] == r;
      } else {
        assert e[1..] == r;
      }
    }
  }

  /** Decoding an encoded name gives the name back, for every string. */
  lemma UnescapeEscape(s: string)
    ensures Unescape(Escape(s)) == s
  {
    UnescapeSlashes(s);
    UnescapeTildes(s);
  }

  /** An encoded name never contains the separator. */
  lemma {:induction false} EscapeHasNoSlash(s: string)
    ensures '/' !in Escape(s)
  {
    if s != "" {
      EscapeStep(s);
      EscapeHasNoSlash(s[1..]);
    }
  }

  lemma {:induction false} EscapePlain(s: string)
    requires '/' !in s && '~' !in s
    ensures Escape(s) == s
  {
    if s != "" {
      EscapeStep(s);
      EscapePlain(s[1..]);
    }
  }

  // ---- resolution ----

  /** Follow decoded names through nested dictionaries. */
  function Descend(j: Json, parts: seq<string>): Option<Json> {
    if parts == [] then Some(j)
    else if !j.Obj? then None
    else
      match Get(j.fields, parts[0])
      case None => None
      case Some(child) => Descend(child, parts[1..])
  }

  lemma {:induction false} DescendCat(j: Json, p: seq<string>, q: seq<string>)
    ensures Descend(j, p + q) == (match Descend(j, p) case None => None case Some(k) => Descend(k, q))
  {
    if p == [] {
      assert p + q == q;
    } else if j.Obj? && Has(j.fields, p[0]) {
      assert (p + q)[1..] == p[1..] + q;
      DescendCat(Get(j.fields, p[0]).value, p[1..], q);
    }
  }

  predicate IsLocal(reference: string) {
    |reference| >= 2 && reference[0] == '#' && reference[1] == '/'
  }

  function DecodeAll(raw: seq<string>): (r: seq<string>)
    ensures |r| == |raw|
    ensures forall i | 0 <= i < |raw| :: r[i] == Unescape(raw[i])
  {
    seq(|raw|, i requires 0 <= i < |raw| => Unescape(raw[i]))
  }

  /** The decoded steps of a `#/` reference. */
  function Steps(reference: string): seq<string>
    requires IsLocal(reference)
  {
    DecodeAll(Split(reference[2..]))
  }

  /** The value a local reference names, if there is one. */
  function Resolve(root: Json, reference: string): Option<Json>
    requires IsLocal(reference)
  {
    Descend(root, Steps(reference))
  }

  function EscapeAll(names: seq<string>): (r: seq<string>)
    ensures |r| == |names|
    ensures forall i | 0 <= i < |names| :: r[i] == Escape(names[i])
  {
    seq(|names|, i requires 0 <= i < |names| => Escape(names[i]))
  }

  function Join(raw: seq<string>): string {
    if raw == [] then "" else "/" + raw[0] + Join(raw[1..])
  }

  /** The path the schema walkers print for a list of names: each escaped behind a slash. */
  function Print(names: seq<string>): string {
    Join(EscapeAll(names))
  }

  lemma {:induction false} JoinCat(p: seq<string>, q: seq<string>)
    ensures Join(p + q) == Join(p) + Join(q)
  {
    if p == [] {
      assert p + q == q;
    } else {
      assert (p + q)[1..] == p[1..] + q;
      JoinCat(p[1..], q);
    }
  }

  lemma PrintCat(p: seq<string>, q: seq<string>)
    ensures Print(p + q) == Print(p) + Print(q)
  {
    assert EscapeAll(p + q) == EscapeAll(p) + EscapeAll(q);
    JoinCat(EscapeAll(p), EscapeAll(q));
  }

  lemma {:induction false} SplitAt(s: string, t: string)
    requires '/' !in s
    ensures Split(s) == [s]
    ensures Split(s + "/" + t) == [s] + Split(t)
  {
    if s == "" {
      assert ("" + "/" + t)[1..] == t;
    } else {
      SplitAt(s[1..], t);
      assert (s + "/" + t)[1..] == s[1..] + "/" + t;
      assert [s[0]] + s[1..] == s;
    }
  }

  /** `Join` without its leading slash. */
  function JoinTail(raw: seq<string>): (r: string)
    requires raw != []
    ensures Join(raw) == "/" + r
  {
    if |raw| == 1 then raw[0] else raw[0] + "/" + JoinTail(raw[1..])
  }

  lemma {:induction false} SplitJoin(raw: seq<string>)
    requires raw != [] && forall i | 0 <= i < |raw| :: '/' !in raw[i]
    ensures Split(JoinTail(raw)) == raw
  {
    if |raw| == 1 {
      SplitAt(raw[0], "");
    } else {
      SplitJoin(raw[1..]);
      SplitAt(raw[0], JoinTail(raw[1..]));
    }
  }

  /** A printed path, read as a `#/` reference, names exactly the steps it was printed from. */
  lemma StepsOfPrinted(names: seq<string>)
    requires names != []
    ensures IsLocal("#" + Print(names))
    ensures Steps("#" + Print(names)) == names
  {
    var raw := EscapeAll(names);
    forall i | 0 <= i < |raw| ensures '/' !in raw[i] {
      EscapeHasNoSlash(names[i]);
    }
    SplitJoin(raw);
    var reference := "#" + Print(names);
    assert reference[2..] == JoinTail(raw);
    forall i | 0 <= i < |names| ensures Steps(reference)[i] == names[i] {
      UnescapeEscape(names[i]);
    }
  }
}
