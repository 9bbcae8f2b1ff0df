/** The dotted paths that reference findings carry, as `ConclusionValidator` prints them and
    `_remove_unknown_reference_list_items` reads them back. */
module PathText {
  import Decimal

  datatype Step = Key(name: string) | Index(i: nat)

  type Path = seq<Step>

  /** The text of a step that follows some other step. */
  function Piece(step: Step): string {
    match step
    case Key(name) => "." + name
    case Index(i) => "[" + Decimal.ToString(i) + "]"
  }

  /** How the walk extends a printed path by one step: a first name stands bare. */
  function Extend(path: string, step: Step): string {
    if path == "" && step.Key? then step.name else path + Piece(step)
  }

  function Print(at: Path): string {
    if at == [] then "" else Extend(Print(at[..|at| - 1]), at[|at| - 1])
  }

  predicate Separator(c: char) {
    c == '.' || c == '[' || c == ']'
  }

  /** A field name that the pattern of the reader matches whole. */
  predicate PlainName(name: string) {
    name != "" && forall i | 0 <= i < |name| :: !Separator(name[i])
  }

  /** The length of the longest prefix without a separator. */
  function Run(s: string): (n: nat)
    ensures n <= |s|
  {
    if s == "" || Separator(s[0]) then 0 else 1 + Run(s[1..])
  }

  /** The length of the longest prefix of digits. */
  function Digits(s: string): (n: nat)
    ensures n <= |s| && forall i | 0 <= i < n :: Decimal.IsDigit(s[i])
  {
    if s == "" || !Decimal.IsDigit(s[0]) then 0 else 1 + Digits(s[1..])
  }

  /** The matches of `([^.\[\]]+)|\[(\d+)\]`, left to right; other characters are skipped. */
  function Parse(s: string): Path
    decreases |s|
  {
    if s == "" then []
    else if !Separator(s[0]) then [Key(s[..Run(s)])] + Parse(s[Run(s)..])
    else
      var d := Digits(s[1..]);
      if s[0] == '[' && d > 0 && d + 1 < |s| && s[d + 1] == ']' then
        [Index(Decimal.Value(s[1..d + 1]))] + Parse(s[d + 2..])
      else Parse(s[1..])
  }

  // ---- reading a printed path gives back its steps ----

  /** The text of steps that follow some other step. */
  function Tail(at: Path): string {
    if at == [] then "" else Piece(at[0]) + Tail(at[1..])
  }

  predicate PlainPath(at: Path) {
    forall i | 0 <= i < |at| && at[i].Key? :: PlainName(at[i].name)
  }

  lemma {:induction false} PrintNonEmpty(at: Path)
    requires PlainPath(at) && at != []
    ensures Print(at) != ""
  {
  }

  lemma TailOne(step: Step)
    ensures Tail([step]) == Piece(step)
  {
    assert [step][1..] == [];
    assert Piece(step) + "" == Piece(step);
  }

  lemma Assoc(a: string, b: string, c: string)
    ensures (a + b) + c == a + (b + c)
  {
  }

  lemma {:induction false} TailCat(at: Path, step: Step)
    ensures Tail(at + [step]) == Tail(at) + Piece(step)
  {
    if at != [] {
      assert (at + [step])[1..] == at[1..] + [step];
      TailCat(at[1..], step);
      Assoc(Piece(at[0]), Tail(at[1..]), Piece(step));
    } else {
      TailOne(step);
      assert [] + [step] == [step];
    }
  }

  lemma PrintSnoc(init: Path, last: Step)
    requires Print(init) != ""
    ensures Print(init + [last]) == Print(init) + Piece(last)
  {
    assert (init + [last])[..|init|] == init;
  }

  lemma PrintOne(step: Step)
    requires step.Key? ==> step.name != ""
    ensures Print([step]) == if step.Key? then step.name else Piece(step)
  {
    assert [step][..0] == [];
    assert "" + Piece(step) == Piece(step);
  }

  /** What the first step prints, before the others. */
  function Head(step: Step): string {
    if step.Key? then step.name else Piece(step)
  }

  lemma EmptyTail(head: string)
    ensures head + Tail([]) == head
  {
  }

  lemma PrintTailSnoc(init: Path, last: Step, head: string)
    requires init != [] && Print(init) != "" && Print(init) == head + Tail(init[1..])
    ensures Print(init + [last]) == head + Tail((init + [last])[1..])
  {
    hide Piece;
    assert (init + [last])[1..] == init[1..] + [last];
    PrintSnoc(init, last);
    TailCat(init[1..], last);
    Assoc(head, Tail(init[1..]), Piece(last));
  }

  lemma PrintOneIsTail(step: Step)
    requires step.Key? ==> step.name != ""
    ensures Print([step]) == Head(step) + Tail([step][1..])
  {
    PrintOne(step);
    assert [step][1..] == [];
    EmptyTail(Head(step));
  }

  lemma {:induction false} PrintIsTail(at: Path)
    requires PlainPath(at) && at != []
    ensures Print(at) == Head(at[0]) + Tail(at[1..])
    decreases |at|
  {
    hide Piece, Head;
    var init, last := at[..|at| - 1], at[|at| - 1];
    if init == [] {
      assert at == [last];
      PrintOneIsTail(last);
    } else {
      PrintIsTail(init);
      PrintNonEmpty(init);
      assert at == init + [last];
      PrintTailSnoc(init, last, Head(at[0]));
    }
  }

  lemma {:induction false} RunOfName(name: string, t: string)
    requires forall i | 0 <= i < |name| :: !Separator(name[i])
    requires t == "" || Separator(t[0])
    ensures Run(name + t) == |name|
  {
    if name == "" {
      assert name + t == t;
    } else {
      assert (name + t)[1..] == name[1..] + t;
      RunOfName(name[1..], t);
    }
  }

  lemma {:induction false} DigitsOf(ds: string, t: string)
    requires forall i | 0 <= i < |ds| :: Decimal.IsDigit(ds[i])
    requires t != "" && !Decimal.IsDigit(t[0])
    ensures Digits(ds + t) == |ds|
  {
    if ds == "" {
      assert ds + t == t;
    } else {
      assert (ds + t)[1..] == ds[1..] + t;
      DigitsOf(ds[1..], t);
    }
  }

  lemma ParseName(name: string, t: string)
    requires PlainName(name) && (t == "" || Separator(t[0]))
    ensures Parse(name + t) == [Key(name)] + Parse(t)
  {
    RunOfName(name, t);
    assert (name + t)[..|name|] == name && (name + t)[|name|..] == t;
  }

  lemma ParseIndex(i: nat, t: string)
    ensures Parse("[" + Decimal.ToString(i) + "]" + t) == [Index(i)] + Parse(t)
  {
    var ds := Decimal.ToString(i);
    var s := "[" + ds + "]" + t;
    assert s[1..] == ds + ("]" + t);
    DigitsOf(ds, "]" + t);
    assert s[1..|ds| + 1] == ds && s[|ds| + 2..] == t;
    Decimal.ValueOfToString(i);
  }

  lemma TailStart(at: Path)
    ensures Tail(at) == "" || Separator(Tail(at)[0])
  {
  }

  lemma SkipDot(t: string)
    ensures Parse("." + t) == Parse(t)
  {
    assert ("." + t)[1..] == t;
  }

  lemma ParsePiece(step: Step, t: string)
    requires step.Key? ==> PlainName(step.name)
    requires t == "" || Separator(t[0])
    ensures Parse(Piece(step) + t) == [step] + Parse(t)
  {
    match step
    case Key(name) =>
      assert Piece(step) + t == "." + (name + t);
      SkipDot(name + t);
      ParseName(name, t);
    case Index(i) => ParseIndex(i, t);
  }

  lemma {:induction false} ParseTail(at: Path)
    requires PlainPath(at)
    ensures Parse(Tail(at)) == at
  {
    if at != [] {
      ParseTail(at[1..]);
      TailStart(at[1..]);
      ParsePiece(at[0], Tail(at[1..]));
    }
  }

  /** A path whose field names are plain is read back as exactly its steps. */
  lemma ParsePrint(at: Path)
    requires PlainPath(at)
    ensures Parse(Print(at)) == at
  {
    if at != [] {
      PrintIsTail(at);
      ParseTail(at[1..]);
      TailStart(at[1..]);
      if at[0].Key? {
        ParseName(at[0].name, Tail(at[1..]));
      } else {
        ParsePiece(at[0], Tail(at[1..]));
      }
    }
  }

  lemma {:induction false} RunIsPlain(s: string)
    requires s != "" && !Separator(s[0])
    ensures PlainName(s[..Run(s)])
  {
    if |s| > 1 && !Separator(s[1]) {
      RunIsPlain(s[1..]);
      assert s[..Run(s)] == [s[0]] + s[1..][..Run(s[1..])];
    }
  }

  lemma {:induction false} ParseIsPlain(s: string)
    ensures PlainPath(Parse(s))
    decreases |s|
  {
    if s != "" {
      if !Separator(s[0]) {
        RunIsPlain(s);
        ParseIsPlain(s[Run(s)..]);
      } else {
        var d := Digits(s[1..]);
        if s[0] == '[' && d > 0 && d + 1 < |s| && s[d + 1] == ']' {
          ParseIsPlain(s[d + 2..]);
        } else {
          ParseIsPlain(s[1..]);
        }
      }
    }
  }

  /** Exactly the paths of plain names survive being printed and read. */
  lemma ReadBackIff(at: Path)
    ensures Parse(Print(at)) == at <==> PlainPath(at)
  {
    ParseIsPlain(Print(at));
    if PlainPath(at) {
      ParsePrint(at);
    }
  }

  /** A name with a separator in it is not read back whole. */
  lemma DottedNameIsSplit()
    ensures Parse(Print([Key("a.b")])) == [Key("a"), Key("b")]
  {
    var s := "a.b";
    assert Print([Key(s)]) == s;
    assert s == "a" + ".b" && ".b"[1..] == "b";
    ParseName("a", ".b");
    ParseName("b", "");
    assert "b" + "" == "b";
  }
}
