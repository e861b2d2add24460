/**
 * The six model classes declared at the end of lib/orm_classes.py (Menu,
 * Barista, Guest, Personal_Order, Orders, Orders_has_personal_order), their
 * docstrings written out character for character, and the `_meta` that
 * parse_docstring derives from each of them.
 *
 * Five of the docstrings end every declaration with the escape `\n` and
 * four spaces, so each declaration is followed by an empty line; the last
 * one has neither. In every case the declared min_value / max_value bounds
 * do not survive the parse.
 */
module OrmSchemas {
  import opened Wrappers
  import opened Text
  import opened Values
  import opened OrmFields
  import opened OrmParser
  import opened OrderedMaps


  /** The indentation of a docstring line inside a class body. */
  const Pad := "    "

  /** A docstring of three declarations, each followed by four spaces, an escaped newline and a real one. */
  function EscapedDoc3(a: string, b: string, c: string): string {
    Join("\n", ["", Pad + a + Pad, "", Pad + b + Pad, "", Pad + c + Pad, "", Pad])
  }

  /** The same with four declarations. */
  function EscapedDoc4(a: string, b: string, c: string, d: string): string {
    Join("\n", ["", Pad + a + Pad, "", Pad + b + Pad, "", Pad + c + Pad, "", Pad + d + Pad, "", Pad])
  }

  /** A docstring of three declarations, one per line. */
  function PlainDoc3(a: string, b: string, c: string): string {
    Join("\n", ["", Pad + a, Pad + b, Pad + c, Pad])
  }

  /** `max_length=<n>` */
  function LengthParams(n: nat): string {
    "max_length=" + NatToString(n)
  }

  /** `min_value=<lo>, max_value=<hi>` */
  function BoundsParams(lo: nat, hi: nat): string {
    "min_value=" + NatToString(lo) + ", max_value=" + NatToString(hi)
  }

  // ---------------------------------------------------------------- layout: what strip().split("\n") gives

  /** Text that starts and ends with a visible character and stays on one line. */
  predicate Visible(d: string) {
    d != "" && !IsSpace(d[0]) && !IsSpace(d[|d| - 1]) && '\n' !in d
  }

  lemma DeclarationVisible(name: string, kind: string, params: string)
    requires IsWord(name) && IsWord(kind) && '\n' !in params
    ensures Visible(Declaration(name, kind, params))
  {
    var d := Declaration(name, kind, params);
    assert d[0] == name[0] && d[|d| - 1] == ')';
    assert '\n' !in name && '\n' !in kind;
  }

  /** strip() removes the opening newline, the first indentation and the closing padding; the rest stays. */
  lemma EscapedDoc3Lines(a: string, b: string, c: string)
    requires Visible(a) && Visible(b) && Visible(c)
    ensures DocLines(EscapedDoc3(a, b, c)) == [a + Pad, "", Pad + b + Pad, "", Pad + c]
  {
    var doc := ["", Pad + a + Pad, "", Pad + b + Pad, "", Pad + c + Pad, "", Pad];
    var lines := [a + Pad, "", Pad + b + Pad, "", Pad + c];
    var mid := ["", Pad + b + Pad, ""];
    assert doc == [""] + ([Pad + (a + Pad)] + mid + [(Pad + c) + Pad]) + ["", Pad] by {
      assert Pad + a + Pad == Pad + (a + Pad);
    }
    assert lines == [a + Pad] + mid + [Pad + c];
    assert (a + Pad)[0] == a[0];
    assert (Pad + c)[|Pad + c| - 1] == c[|c| - 1];
    assert Strip(Join("\n", doc)) == Join("\n", lines) by {
      StripJoin([""], Pad, a + Pad, mid, Pad + c, Pad, ["", Pad]);
    }
    assert forall k :: 0 <= k < |lines| ==> '\n' !in lines[k];
    SplitJoin(lines, '\n');
  }

  lemma EscapedDoc4Lines(a: string, b: string, c: string, d: string)
    requires Visible(a) && Visible(b) && Visible(c) && Visible(d)
    ensures DocLines(EscapedDoc4(a, b, c, d)) == [a + Pad, "", Pad + b + Pad, "", Pad + c + Pad, "", Pad + d]
  {
    var doc := ["", Pad + a + Pad, "", Pad + b + Pad, "", Pad + c + Pad, "", Pad + d + Pad, "", Pad];
    var lines := [a + Pad, "", Pad + b + Pad, "", Pad + c + Pad, "", Pad + d];
    var mid := ["", Pad + b + Pad, "", Pad + c + Pad, ""];
    assert doc == [""] + ([Pad + (a + Pad)] + mid + [(Pad + d) + Pad]) + ["", Pad] by {
      assert Pad + a + Pad == Pad + (a + Pad);
    }
    assert lines == [a + Pad] + mid + [Pad + d];
    assert (a + Pad)[0] == a[0];
    assert (Pad + d)[|Pad + d| - 1] == d[|d| - 1];
    assert Strip(Join("\n", doc)) == Join("\n", lines) by {
      StripJoin([""], Pad, a + Pad, mid, Pad + d, Pad, ["", Pad]);
    }
    assert forall k :: 0 <= k < |lines| ==> '\n' !in lines[k];
    SplitJoin(lines, '\n');
  }

  lemma PlainDoc3Lines(a: string, b: string, c: string)
    requires Visible(a) && Visible(b) && Visible(c)
    ensures DocLines(PlainDoc3(a, b, c)) == [a, Pad + b, Pad + c]
  {
    var doc := ["", Pad + a, Pad + b, Pad + c, Pad];
    var lines := [a, Pad + b, Pad + c];
    assert doc == [""] + ([Pad + a] + [Pad + b] + [(Pad + c) + ""]) + [Pad] by {
      assert (Pad + c) + "" == Pad + c;
    }
    assert lines == [a] + [Pad + b] + [Pad + c];
    assert !IsSpace((Pad + c)[|Pad + c| - 1]) by {
      assert (Pad + c)[|Pad + c| - 1] == c[|c| - 1];
    }
    assert Strip(Join("\n", doc)) == Join("\n", lines) by {
      StripJoin([""], Pad, a, [Pad + b], Pad + c, "", [Pad]);
    }
    assert '\n' !in Pad + b && '\n' !in Pad + c;
    SplitJoin(lines, '\n');
  }

  // ---------------------------------------------------------------- the effect of each kind of declaration line

  lemma IdLine(lead: string, trail: string)
    requires AllSpace(lead) && AllSpace(trail)
    ensures LineEffect(lead + Declaration("id", "IntegerField", "primary_key=True") + trail)
      == Ok(Column("id", IntegerField(true, None, VNone, VNone)))
    ensures Visible(Declaration("id", "IntegerField", "primary_key=True"))
  {
    DeclarationVisible("id", "IntegerField", "primary_key=True");
    DeclarationLineEffect(lead, "id", "IntegerField", "primary_key=True", trail);
    PrimaryKeyDeclaration("id");
  }

  lemma CharLine(lead: string, name: string, n: nat, trail: string)
    requires AllSpace(lead) && AllSpace(trail) && IsWord(name)
    ensures LineEffect(lead + Declaration(name, "CharField", LengthParams(n)) + trail)
      == Ok(Column(name, CharField(n, false, None, map[])))
    ensures Visible(Declaration(name, "CharField", LengthParams(n)))
  {
    assert ')' !in LengthParams(n) && '\n' !in LengthParams(n) by {
      assert forall c :: c in NatToString(n) ==> IsDigit(c);
    }
    DeclarationVisible(name, "CharField", LengthParams(n));
    DeclarationLineEffect(lead, name, "CharField", LengthParams(n), trail);
    CharDeclaration(name, n);
  }

  lemma WordsLine(lead: string, name: string, n: nat, w: nat, trail: string)
    requires AllSpace(lead) && AllSpace(trail) && IsWord(name)
    ensures LineEffect(lead + Declaration(name, "CharField", WordsParams(n, w)) + trail)
      == Ok(Column(name, CharField(n, false, None, map["words_count" := VInt(w)])))
    ensures Visible(Declaration(name, "CharField", WordsParams(n, w)))
  {
    assert ')' !in WordsParams(n, w) && '\n' !in WordsParams(n, w) by {
      assert forall c :: c in NatToString(n) ==> IsDigit(c);
      assert forall c :: c in NatToString(w) ==> IsDigit(c);
    }
    DeclarationVisible(name, "CharField", WordsParams(n, w));
    DeclarationLineEffect(lead, name, "CharField", WordsParams(n, w), trail);
    CharWordsDeclaration(name, n, w);
  }

  /** Bound parameters hold no ')', no newline and no 'p', so they never read as primary_key=True. */
  lemma BoundsParamsPlain(lo: nat, hi: nat)
    ensures ')' !in BoundsParams(lo, hi) && '\n' !in BoundsParams(lo, hi) && 'p' !in BoundsParams(lo, hi)
  {
    var l, r := NatToString(lo), NatToString(hi);
    assert forall c :: c in l ==> IsDigit(c);
    assert forall c :: c in r ==> IsDigit(c);
    assert forall c :: c in "min_value=" ==> c != ')' && c != '\n' && c != 'p';
    assert forall c :: c in ", max_value=" ==> c != ')' && c != '\n' && c != 'p';
    assert BoundsParams(lo, hi) == "min_value=" + l + ", max_value=" + r;
  }

  lemma BoundedIntegerLine(lead: string, name: string, lo: nat, hi: nat, trail: string)
    requires AllSpace(lead) && AllSpace(trail) && IsWord(name)
    ensures LineEffect(lead + Declaration(name, "IntegerField", BoundsParams(lo, hi)) + trail)
      == Ok(Column(name, IntegerField(false, None, VNone, VNone)))
    ensures Visible(Declaration(name, "IntegerField", BoundsParams(lo, hi)))
  {
    BoundsParamsPlain(lo, hi);
    DeclarationVisible(name, "IntegerField", BoundsParams(lo, hi));
    DeclarationLineEffect(lead, name, "IntegerField", BoundsParams(lo, hi), trail);
    NotContainsFirstChar(BoundsParams(lo, hi), "primary_key=True");
    IntegerDeclarationDropsBounds(name, BoundsParams(lo, hi));
  }

  lemma FloatLine(lead: string, name: string, lo: nat, hi: nat, trail: string)
    requires AllSpace(lead) && AllSpace(trail) && IsWord(name)
    ensures LineEffect(lead + Declaration(name, "FloatField", BoundsParams(lo, hi)) + trail)
      == Ok(Column(name, FloatField(false, None, VNone, VNone)))
    ensures Visible(Declaration(name, "FloatField", BoundsParams(lo, hi)))
  {
    BoundsParamsPlain(lo, hi);
    DeclarationVisible(name, "FloatField", BoundsParams(lo, hi));
    DeclarationLineEffect(lead, name, "FloatField", BoundsParams(lo, hi), trail);
    FloatDeclarationDropsAll(name, Some(BoundsParams(lo, hi)));
  }

  lemma ForeignKeyLine(lead: string, name: string, target: string, trail: string)
    requires AllSpace(lead) && AllSpace(trail) && IsWord(name) && IsWord(target)
    ensures LineEffect(lead + Declaration(name, "ForeignKey", "to=" + target) + trail)
      == Ok(Column(name, ForeignKey(target)))
    ensures Visible(Declaration(name, "ForeignKey", "to=" + target))
  {
    DeclarationVisible(name, "ForeignKey", "to=" + target);
    assert '=' !in target && ')' !in target;
    assert ')' !in "to=" + target;
    DeclarationLineEffect(lead, name, "ForeignKey", "to=" + target, trail);
    ForeignKeyDeclaration(name, target);
  }

  // ---------------------------------------------------------------- from line effects to `_meta`

  /** The lines of EscapedDoc3 after strip().split("\n"). */
  function Escaped3Lines(a: string, b: string, c: string): seq<string> {
    [a + Pad, "", Pad + b + Pad, "", Pad + c]
  }

  function Escaped4Lines(a: string, b: string, c: string, d: string): seq<string> {
    [a + Pad, "", Pad + b + Pad, "", Pad + c + Pad, "", Pad + d]
  }

  function Plain3Lines(a: string, b: string, c: string): seq<string> {
    [a, Pad + b, Pad + c]
  }

  /** Column lines separated by blank lines. */
  function Interleaved(cols: seq<(string, Field)>): (es: seq<Result<Effect, OrmError>>)
    requires |cols| > 0
    ensures |es| == 2 * |cols| - 1
  {
    if |cols| == 1 then [Ok(Column(cols[0].0, cols[0].1))]
    else Interleaved(cols[..|cols| - 1]) + [Ok(NoEffect), Ok(Column(cols[|cols| - 1].0, cols[|cols| - 1].1))]
  }

  /** Column lines one after the other. */
  function Consecutive(cols: seq<(string, Field)>): (es: seq<Result<Effect, OrmError>>)
    ensures |es| == |cols|
  {
    seq(|cols|, i requires 0 <= i < |cols| => Ok(Column(cols[i].0, cols[i].1)))
  }

  /** Column lines with distinct names, blank lines between them or not, parse to exactly those columns. */
  lemma {:induction false} InterleavedParse(cols: seq<(string, Field)>)
    requires |cols| > 0 && Distinct(Keys(cols))
    ensures ParseEffects(Interleaved(cols)) == Ok(Schema(cols, []))
  {
    var n := |cols| - 1;
    if n > 0 {
      var init := cols[..n];
      assert Keys(init) == Keys(cols)[..n];
      InterleavedParse(init);
      var es := Interleaved(init);
      var es' := es + [Ok(NoEffect)];
      ParseEffectsSnoc(es, NoEffect);
      assert ParseEffects(es') == Ok(Schema(init, []));
      ParseEffectsSnoc(es', Column(cols[n].0, cols[n].1));
      assert es' + [Ok(Column(cols[n].0, cols[n].1))] == Interleaved(cols);
      assert ParseEffects(Interleaved(cols)) == Ok(Schema(Assign(init, cols[n].0, cols[n].1), []));
      assert cols[n].0 !in Keys(init);
      AssignNew(init, cols[n].0, cols[n].1);
      assert init + [(cols[n].0, cols[n].1)] == cols;
    } else {
      var es := Interleaved(cols);
      assert es[..0] == [];
      assert [(cols[0].0, cols[0].1)] == cols;
    }
  }

  lemma {:induction false} ConsecutiveParse(cols: seq<(string, Field)>)
    requires Distinct(Keys(cols))
    ensures ParseEffects(Consecutive(cols)) == Ok(Schema(cols, []))
  {
    var n := |cols|;
    if n > 0 {
      var init := cols[..n - 1];
      assert Keys(init) == Keys(cols)[..n - 1];
      ConsecutiveParse(init);
      ParseEffectsSnoc(Consecutive(init), Column(cols[n - 1].0, cols[n - 1].1));
      assert Consecutive(init) + [Ok(Column(cols[n - 1].0, cols[n - 1].1))] == Consecutive(cols);
      assert cols[n - 1].0 !in Keys(init);
      AssignNew(init, cols[n - 1].0, cols[n - 1].1);
      assert init + [cols[n - 1]] == cols;
    }
  }

  lemma Interleaved3(cols: seq<(string, Field)>)
    requires |cols| == 3
    ensures Interleaved(cols) == [Ok(Column(cols[0].0, cols[0].1)), Ok(NoEffect),
      Ok(Column(cols[1].0, cols[1].1)), Ok(NoEffect), Ok(Column(cols[2].0, cols[2].1))]
  {
    assert cols[..2][..1] == [cols[0]];
    assert Interleaved(cols[..2][..1]) == [Ok(Column(cols[0].0, cols[0].1))];
    assert cols[..2][1] == cols[1];
    assert Interleaved(cols[..2]) == [Ok(Column(cols[0].0, cols[0].1)), Ok(NoEffect), Ok(Column(cols[1].0, cols[1].1))];
  }

  lemma Interleaved4(cols: seq<(string, Field)>)
    requires |cols| == 4
    ensures Interleaved(cols) == [Ok(Column(cols[0].0, cols[0].1)), Ok(NoEffect),
      Ok(Column(cols[1].0, cols[1].1)), Ok(NoEffect), Ok(Column(cols[2].0, cols[2].1)), Ok(NoEffect),
      Ok(Column(cols[3].0, cols[3].1))]
  {
    Interleaved3(cols[..3]);
  }

  /** A three-declaration escaped docstring whose lines have the given effects parses to those columns. */
  lemma EscapedDoc3Parse(a: string, b: string, c: string, cols: seq<(string, Field)>)
    requires Visible(a) && Visible(b) && Visible(c)
    requires |cols| == 3 && Distinct(Keys(cols))
    requires forall k :: 0 <= k < 5 ==> LineEffect(Escaped3Lines(a, b, c)[k]) == Interleaved(cols)[k]
    ensures ParseDoc(EscapedDoc3(a, b, c)) == Ok(Schema(cols, []))
  {
    EscapedDoc3Lines(a, b, c);
    EffectsOfLines(Escaped3Lines(a, b, c), Interleaved(cols));
    InterleavedParse(cols);
  }

  lemma EscapedDoc4Parse(a: string, b: string, c: string, d: string, cols: seq<(string, Field)>)
    requires Visible(a) && Visible(b) && Visible(c) && Visible(d)
    requires |cols| == 4 && Distinct(Keys(cols))
    requires forall k :: 0 <= k < 7 ==> LineEffect(Escaped4Lines(a, b, c, d)[k]) == Interleaved(cols)[k]
    ensures ParseDoc(EscapedDoc4(a, b, c, d)) == Ok(Schema(cols, []))
  {
    EscapedDoc4Lines(a, b, c, d);
    EffectsOfLines(Escaped4Lines(a, b, c, d), Interleaved(cols));
    InterleavedParse(cols);
  }

  /** The same for the docstring without escapes, whose declaration lines follow each other. */
  lemma PlainDoc3Parse(a: string, b: string, c: string, cols: seq<(string, Field)>)
    requires Visible(a) && Visible(b) && Visible(c)
    requires |cols| == 3 && Distinct(Keys(cols))
    requires forall k :: 0 <= k < 3 ==> LineEffect(Plain3Lines(a, b, c)[k]) == Consecutive(cols)[k]
    ensures ParseDoc(PlainDoc3(a, b, c)) == Ok(Schema(cols, []))
  {
    PlainDoc3Lines(a, b, c);
    EffectsOfLines(Plain3Lines(a, b, c), Consecutive(cols));
    ConsecutiveParse(cols);
  }

  // ---------------------------------------------------------------- the six docstrings

  /** The declaration every model starts with. */
  const IdDecl := Declaration("id", "IntegerField", "primary_key=True")
  const IdColumn := ("id", IntegerField(true, None, VNone, VNone))

  const MenuName := Declaration("name", "CharField", LengthParams(100))
  const MenuPrices := Declaration("prices", "FloatField", BoundsParams(1, 1000))
  const MenuDoc := EscapedDoc3(IdDecl, MenuName, MenuPrices)

  const BaristaName := Declaration("name", "CharField", WordsParams(255, 3))
  const BaristaWorkTime := Declaration("work_time", "IntegerField", BoundsParams(0, 160))
  const BaristaDoc := EscapedDoc3(IdDecl, BaristaName, BaristaWorkTime)

  const GuestName := Declaration("name", "CharField", WordsParams(255, 3))
  const GuestContact := Declaration("contact_number", "CharField", LengthParams(16))
  const GuestDoc := EscapedDoc3(IdDecl, GuestName, GuestContact)

  const PersonalOrderCount := Declaration("count", "IntegerField", BoundsParams(1, 5))
  const PersonalOrderMenu := Declaration("menu_id", "ForeignKey", "to=" + "Menu")
  const PersonalOrderDoc := EscapedDoc3(IdDecl, PersonalOrderCount, PersonalOrderMenu)

  const OrdersDate := Declaration("order_date", "CharField", LengthParams(10))
  const OrdersGuest := Declaration("guest_id", "ForeignKey", "to=" + "Guest")
  const OrdersBarista := Declaration("barista_id", "ForeignKey", "to=" + "Barista")
  const OrdersDoc := EscapedDoc4(IdDecl, OrdersDate, OrdersGuest, OrdersBarista)

  const JunctionPersonalOrder := Declaration("personal_order_id", "ForeignKey", "to=" + "Personal_order")
  const JunctionOrders := Declaration("orders_id", "ForeignKey", "to=" + "Orders")
  const JunctionDoc := PlainDoc3(IdDecl, JunctionPersonalOrder, JunctionOrders)

  /** The blank lines between the declarations of an escaped docstring. */
  lemma Escaped3Blank(a: string, b: string, c: string, k: nat)
    requires k == 1 || k == 3
    ensures LineEffect(Escaped3Lines(a, b, c)[k]) == Ok(NoEffect)
  {
    assert Escaped3Lines(a, b, c)[k] == "";
    BlankLineEffect("");
  }

  lemma Escaped4Blank(a: string, b: string, c: string, d: string, k: nat)
    requires k == 1 || k == 3 || k == 5
    ensures LineEffect(Escaped4Lines(a, b, c, d)[k]) == Ok(NoEffect)
  {
    assert Escaped4Lines(a, b, c, d)[k] == "";
    BlankLineEffect("");
  }

  // ---------------------------------------------------------------- Menu

  const MenuColumns := [
    IdColumn,
    ("name", CharField(100, false, None, map[])),
    ("prices", FloatField(false, None, VNone, VNone))]

  const MenuEffects: seq<Result<Effect, OrmError>> := [
    Ok(Column("id", IdColumn.1)),
    Ok(NoEffect),
    Ok(Column("name", CharField(100, false, None, map[]))),
    Ok(NoEffect),
    Ok(Column("prices", FloatField(false, None, VNone, VNone)))]

  /** Menu's `_meta`: prices keeps neither of its declared bounds. */
  lemma MenuSchema()
    ensures ParseDoc(MenuDoc) == Ok(Schema(MenuColumns, []))
  {
    assert Visible(IdDecl) by { MenuLineAt0(0); }
    assert Visible(MenuName) by { MenuLineAt2(2); }
    assert Visible(MenuPrices) by { MenuLineAt4(4); }
    forall k | 0 <= k < 5
      ensures LineEffect(Escaped3Lines(IdDecl, MenuName, MenuPrices)[k]) == MenuEffects[k]
    {
      MenuLine(k);
    }
    assert MenuEffects == Interleaved(MenuColumns) by { Interleaved3(MenuColumns); }
    assert Keys(MenuColumns) == ["id", "name", "prices"];
    EscapedDoc3Parse(IdDecl, MenuName, MenuPrices, MenuColumns);
  }

  lemma MenuLine(k: nat)
    requires k < 5
    ensures LineEffect(Escaped3Lines(IdDecl, MenuName, MenuPrices)[k]) == MenuEffects[k]
  {
    if k == 0 {
      MenuLineAt0(k);
    } else if k == 2 {
      MenuLineAt2(k);
    } else if k == 4 {
      MenuLineAt4(k);
    } else {
      Escaped3Blank(IdDecl, MenuName, MenuPrices, k);
    }
  }

  lemma MenuLineAt0(k: nat)
    requires k == 0
    ensures LineEffect(Escaped3Lines(IdDecl, MenuName, MenuPrices)[k]) == MenuEffects[k] && Visible(IdDecl)
  {
    assert Escaped3Lines(IdDecl, MenuName, MenuPrices)[k] == "" + IdDecl + Pad;
    IdLine("", Pad);
  }

  lemma MenuLineAt2(k: nat)
    requires k == 2
    ensures LineEffect(Escaped3Lines(IdDecl, MenuName, MenuPrices)[k]) == MenuEffects[k] && Visible(MenuName)
  {
    assert Escaped3Lines(IdDecl, MenuName, MenuPrices)[k] == Pad + MenuName + Pad;
    CharLine(Pad, "name", 100, Pad);
  }

  lemma MenuLineAt4(k: nat)
    requires k == 4
    ensures LineEffect(Escaped3Lines(IdDecl, MenuName, MenuPrices)[k]) == MenuEffects[k] && Visible(MenuPrices)
  {
    assert Escaped3Lines(IdDecl, MenuName, MenuPrices)[k] == Pad + MenuPrices + "";
    FloatLine(Pad, "prices", 1, 1000, "");
  }

  // ---------------------------------------------------------------- Barista

  const BaristaColumns := [
    IdColumn,
    ("name", CharField(255, false, None, map["words_count" := VInt(3)])),
    ("work_time", IntegerField(false, None, VNone, VNone))]

  const BaristaEffects: seq<Result<Effect, OrmError>> := [
    Ok(Column("id", IdColumn.1)),
    Ok(NoEffect),
    Ok(Column("name", CharField(255, false, None, map["words_count" := VInt(3)]))),
    Ok(NoEffect),
    Ok(Column("work_time", IntegerField(false, None, VNone, VNone)))]

  /** Barista's `_meta`: the name keeps words_count=3, work_time loses its bounds 0..160. */
  lemma BaristaSchema()
    ensures ParseDoc(BaristaDoc) == Ok(Schema(BaristaColumns, []))
  {
    assert Visible(IdDecl) by { BaristaLineAt0(0); }
    assert Visible(BaristaName) by { BaristaLineAt2(2); }
    assert Visible(BaristaWorkTime) by { BaristaLineAt4(4); }
    forall k | 0 <= k < 5
      ensures LineEffect(Escaped3Lines(IdDecl, BaristaName, BaristaWorkTime)[k]) == BaristaEffects[k]
    {
      BaristaLine(k);
    }
    assert BaristaEffects == Interleaved(BaristaColumns) by { Interleaved3(BaristaColumns); }
    assert Keys(BaristaColumns) == ["id", "name", "work_time"];
    EscapedDoc3Parse(IdDecl, BaristaName, BaristaWorkTime, BaristaColumns);
  }

  lemma BaristaLine(k: nat)
    requires k < 5
    ensures LineEffect(Escaped3Lines(IdDecl, BaristaName, BaristaWorkTime)[k]) == BaristaEffects[k]
  {
    if k == 0 {
      BaristaLineAt0(k);
    } else if k == 2 {
      BaristaLineAt2(k);
    } else if k == 4 {
      BaristaLineAt4(k);
    } else {
      Escaped3Blank(IdDecl, BaristaName, BaristaWorkTime, k);
    }
  }

  lemma BaristaLineAt0(k: nat)
    requires k == 0
    ensures LineEffect(Escaped3Lines(IdDecl, BaristaName, BaristaWorkTime)[k]) == BaristaEffects[k] && Visible(IdDecl)
  {
    assert Escaped3Lines(IdDecl, BaristaName, BaristaWorkTime)[k] == "" + IdDecl + Pad;
    IdLine("", Pad);
  }

  lemma BaristaLineAt2(k: nat)
    requires k == 2
    ensures LineEffect(Escaped3Lines(IdDecl, BaristaName, BaristaWorkTime)[k]) == BaristaEffects[k] && Visible(BaristaName)
  {
    assert Escaped3Lines(IdDecl, BaristaName, BaristaWorkTime)[k] == Pad + BaristaName + Pad;
    WordsLine(Pad, "name", 255, 3, Pad);
  }

  lemma BaristaLineAt4(k: nat)
    requires k == 4
    ensures LineEffect(Escaped3Lines(IdDecl, BaristaName, BaristaWorkTime)[k]) == BaristaEffects[k] && Visible(BaristaWorkTime)
  {
    assert Escaped3Lines(IdDecl, BaristaName, BaristaWorkTime)[k] == Pad + BaristaWorkTime + "";
    BoundedIntegerLine(Pad, "work_time", 0, 160, "");
  }

  // ---------------------------------------------------------------- Guest

  const GuestColumns := [
    IdColumn,
    ("name", CharField(255, false, None, map["words_count" := VInt(3)])),
    ("contact_number", CharField(16, false, None, map[]))]

  const GuestEffects: seq<Result<Effect, OrmError>> := [
    Ok(Column("id", IdColumn.1)),
    Ok(NoEffect),
    Ok(Column("name", CharField(255, false, None, map["words_count" := VInt(3)]))),
    Ok(NoEffect),
    Ok(Column("contact_number", CharField(16, false, None, map[])))]

  /** Guest's `_meta`: a three-word name of at most 255 characters and a contact number of at most 16. */
  lemma GuestSchema()
    ensures ParseDoc(GuestDoc) == Ok(Schema(GuestColumns, []))
  {
    assert Visible(IdDecl) by { GuestLineAt0(0); }
    assert Visible(GuestName) by { GuestLineAt2(2); }
    assert Visible(GuestContact) by { GuestLineAt4(4); }
    forall k | 0 <= k < 5
      ensures LineEffect(Escaped3Lines(IdDecl, GuestName, GuestContact)[k]) == GuestEffects[k]
    {
      GuestLine(k);
    }
    assert GuestEffects == Interleaved(GuestColumns) by { Interleaved3(GuestColumns); }
    assert Keys(GuestColumns) == ["id", "name", "contact_number"];
    EscapedDoc3Parse(IdDecl, GuestName, GuestContact, GuestColumns);
  }

  lemma GuestLine(k: nat)
    requires k < 5
    ensures LineEffect(Escaped3Lines(IdDecl, GuestName, GuestContact)[k]) == GuestEffects[k]
  {
    if k == 0 {
      GuestLineAt0(k);
    } else if k == 2 {
      GuestLineAt2(k);
    } else if k == 4 {
      GuestLineAt4(k);
    } else {
      Escaped3Blank(IdDecl, GuestName, GuestContact, k);
    }
  }

  lemma GuestLineAt0(k: nat)
    requires k == 0
    ensures LineEffect(Escaped3Lines(IdDecl, GuestName, GuestContact)[k]) == GuestEffects[k] && Visible(IdDecl)
  {
    assert Escaped3Lines(IdDecl, GuestName, GuestContact)[k] == "" + IdDecl + Pad;
    IdLine("", Pad);
  }

  lemma GuestLineAt2(k: nat)
    requires k == 2
    ensures LineEffect(Escaped3Lines(IdDecl, GuestName, GuestContact)[k]) == GuestEffects[k] && Visible(GuestName)
  {
    assert Escaped3Lines(IdDecl, GuestName, GuestContact)[k] == Pad + GuestName + Pad;
    WordsLine(Pad, "name", 255, 3, Pad);
  }

  lemma GuestLineAt4(k: nat)
    requires k == 4
    ensures LineEffect(Escaped3Lines(IdDecl, GuestName, GuestContact)[k]) == GuestEffects[k] && Visible(GuestContact)
  {
    assert Escaped3Lines(IdDecl, GuestName, GuestContact)[k] == Pad + GuestContact + "";
    CharLine(Pad, "contact_number", 16, "");
  }

  // ---------------------------------------------------------------- Personal_Order

  const PersonalOrderColumns := [
    IdColumn,
    ("count", IntegerField(false, None, VNone, VNone)),
    ("menu_id", ForeignKey("Menu"))]

  const PersonalOrderEffects: seq<Result<Effect, OrmError>> := [
    Ok(Column("id", IdColumn.1)),
    Ok(NoEffect),
    Ok(Column("count", IntegerField(false, None, VNone, VNone))),
    Ok(NoEffect),
    Ok(Column("menu_id", ForeignKey("Menu")))]

  /** Personal_Order's `_meta`: count loses its bounds 1..5, menu_id references Menu. */
  lemma PersonalOrderSchema()
    ensures ParseDoc(PersonalOrderDoc) == Ok(Schema(PersonalOrderColumns, []))
  {
    assert Visible(IdDecl) by { PersonalOrderLineAt0(0); }
    assert Visible(PersonalOrderCount) by { PersonalOrderLineAt2(2); }
    assert Visible(PersonalOrderMenu) by { PersonalOrderLineAt4(4); }
    forall k | 0 <= k < 5
      ensures LineEffect(Escaped3Lines(IdDecl, PersonalOrderCount, PersonalOrderMenu)[k]) == PersonalOrderEffects[k]
    {
      PersonalOrderLine(k);
    }
    assert PersonalOrderEffects == Interleaved(PersonalOrderColumns) by { Interleaved3(PersonalOrderColumns); }
    assert Keys(PersonalOrderColumns) == ["id", "count", "menu_id"];
    EscapedDoc3Parse(IdDecl, PersonalOrderCount, PersonalOrderMenu, PersonalOrderColumns);
  }

  lemma PersonalOrderLine(k: nat)
    requires k < 5
    ensures LineEffect(Escaped3Lines(IdDecl, PersonalOrderCount, PersonalOrderMenu)[k]) == PersonalOrderEffects[k]
  {
    if k == 0 {
      PersonalOrderLineAt0(k);
    } else if k == 2 {
      PersonalOrderLineAt2(k);
    } else if k == 4 {
      PersonalOrderLineAt4(k);
    } else {
      Escaped3Blank(IdDecl, PersonalOrderCount, PersonalOrderMenu, k);
    }
  }

  lemma PersonalOrderLineAt0(k: nat)
    requires k == 0
    ensures LineEffect(Escaped3Lines(IdDecl, PersonalOrderCount, PersonalOrderMenu)[k]) == PersonalOrderEffects[k] && Visible(IdDecl)
  {
    assert Escaped3Lines(IdDecl, PersonalOrderCount, PersonalOrderMenu)[k] == "" + IdDecl + Pad;
    IdLine("", Pad);
  }

  lemma PersonalOrderLineAt2(k: nat)
    requires k == 2
    ensures LineEffect(Escaped3Lines(IdDecl, PersonalOrderCount, PersonalOrderMenu)[k]) == PersonalOrderEffects[k] && Visible(PersonalOrderCount)
  {
    assert Escaped3Lines(IdDecl, PersonalOrderCount, PersonalOrderMenu)[k] == Pad + PersonalOrderCount + Pad;
    BoundedIntegerLine(Pad, "count", 1, 5, Pad);
  }

  lemma PersonalOrderLineAt4(k: nat)
    requires k == 4
    ensures LineEffect(Escaped3Lines(IdDecl, PersonalOrderCount, PersonalOrderMenu)[k]) == PersonalOrderEffects[k] && Visible(PersonalOrderMenu)
  {
    assert Escaped3Lines(IdDecl, PersonalOrderCount, PersonalOrderMenu)[k] == Pad + PersonalOrderMenu + "";
    ForeignKeyLine(Pad, "menu_id", "Menu", "");
  }

  // ---------------------------------------------------------------- Orders

  const OrdersColumns := [
    IdColumn,
    ("order_date", CharField(10, false, None, map[])),
    ("guest_id", ForeignKey("Guest")),
    ("barista_id", ForeignKey("Barista"))]

  const OrdersEffects: seq<Result<Effect, OrmError>> := [
    Ok(Column("id", IdColumn.1)),
    Ok(NoEffect),
    Ok(Column("order_date", CharField(10, false, None, map[]))),
    Ok(NoEffect),
    Ok(Column("guest_id", ForeignKey("Guest"))),
    Ok(NoEffect),
    Ok(Column("barista_id", ForeignKey("Barista")))]

  /** Orders' `_meta`: an order date of at most 10 characters and references to Guest and Barista. */
  lemma OrdersSchema()
    ensures ParseDoc(OrdersDoc) == Ok(Schema(OrdersColumns, []))
  {
    assert Visible(IdDecl) by { OrdersLineAt0(0); }
    assert Visible(OrdersDate) by { OrdersLineAt2(2); }
    assert Visible(OrdersGuest) by { OrdersLineAt4(4); }
    assert Visible(OrdersBarista) by { OrdersLineAt6(6); }
    forall k | 0 <= k < 7
      ensures LineEffect(Escaped4Lines(IdDecl, OrdersDate, OrdersGuest, OrdersBarista)[k]) == OrdersEffects[k]
    {
      OrdersLine(k);
    }
    assert OrdersEffects == Interleaved(OrdersColumns) by { Interleaved4(OrdersColumns); }
    assert Keys(OrdersColumns) == ["id", "order_date", "guest_id", "barista_id"];
    EscapedDoc4Parse(IdDecl, OrdersDate, OrdersGuest, OrdersBarista, OrdersColumns);
  }

  lemma OrdersLine(k: nat)
    requires k < 7
    ensures LineEffect(Escaped4Lines(IdDecl, OrdersDate, OrdersGuest, OrdersBarista)[k]) == OrdersEffects[k]
  {
    if k == 0 {
      OrdersLineAt0(k);
    } else if k == 2 {
      OrdersLineAt2(k);
    } else if k == 4 {
      OrdersLineAt4(k);
    } else if k == 6 {
      OrdersLineAt6(k);
    } else {
      Escaped4Blank(IdDecl, OrdersDate, OrdersGuest, OrdersBarista, k);
    }
  }

  lemma OrdersLineAt0(k: nat)
    requires k == 0
    ensures LineEffect(Escaped4Lines(IdDecl, OrdersDate, OrdersGuest, OrdersBarista)[k]) == OrdersEffects[k] && Visible(IdDecl)
  {
    assert Escaped4Lines(IdDecl, OrdersDate, OrdersGuest, OrdersBarista)[k] == "" + IdDecl + Pad;
    IdLine("", Pad);
  }

  lemma OrdersLineAt2(k: nat)
    requires k == 2
    ensures LineEffect(Escaped4Lines(IdDecl, OrdersDate, OrdersGuest, OrdersBarista)[k]) == OrdersEffects[k] && Visible(OrdersDate)
  {
    assert Escaped4Lines(IdDecl, OrdersDate, OrdersGuest, OrdersBarista)[k] == Pad + OrdersDate + Pad;
    CharLine(Pad, "order_date", 10, Pad);
  }

  lemma OrdersLineAt4(k: nat)
    requires k == 4
    ensures LineEffect(Escaped4Lines(IdDecl, OrdersDate, OrdersGuest, OrdersBarista)[k]) == OrdersEffects[k] && Visible(OrdersGuest)
  {
    assert Escaped4Lines(IdDecl, OrdersDate, OrdersGuest, OrdersBarista)[k] == Pad + OrdersGuest + Pad;
    ForeignKeyLine(Pad, "guest_id", "Guest", Pad);
  }

  lemma OrdersLineAt6(k: nat)
    requires k == 6
    ensures LineEffect(Escaped4Lines(IdDecl, OrdersDate, OrdersGuest, OrdersBarista)[k]) == OrdersEffects[k] && Visible(OrdersBarista)
  {
    assert Escaped4Lines(IdDecl, OrdersDate, OrdersGuest, OrdersBarista)[k] == Pad + OrdersBarista + "";
    ForeignKeyLine(Pad, "barista_id", "Barista", "");
  }

  // ---------------------------------------------------------------- Orders_has_personal_order

  const JunctionColumns := [
    IdColumn,
    ("personal_order_id", ForeignKey("Personal_order")),
    ("orders_id", ForeignKey("Orders"))]

  const JunctionEffects: seq<Result<Effect, OrmError>> := [
    Ok(Column("id", IdColumn.1)),
    Ok(Column("personal_order_id", ForeignKey("Personal_order"))),
    Ok(Column("orders_id", ForeignKey("Orders")))]

  /** Orders_has_personal_order's `_meta`: the docstring without escapes parses the same way; personal_order_id references Personal_order. */
  lemma JunctionSchema()
    ensures ParseDoc(JunctionDoc) == Ok(Schema(JunctionColumns, []))
  {
    assert Visible(IdDecl) by { JunctionLineAt0(0); }
    assert Visible(JunctionPersonalOrder) by { JunctionLineAt1(1); }
    assert Visible(JunctionOrders) by { JunctionLineAt2(2); }
    forall k | 0 <= k < 3
      ensures LineEffect(Plain3Lines(IdDecl, JunctionPersonalOrder, JunctionOrders)[k]) == JunctionEffects[k]
    {
      JunctionLine(k);
    }
    assert JunctionEffects == Consecutive(JunctionColumns);
    assert Keys(JunctionColumns) == ["id", "personal_order_id", "orders_id"];
    PlainDoc3Parse(IdDecl, JunctionPersonalOrder, JunctionOrders, JunctionColumns);
  }

  lemma JunctionLine(k: nat)
    requires k < 3
    ensures LineEffect(Plain3Lines(IdDecl, JunctionPersonalOrder, JunctionOrders)[k]) == JunctionEffects[k]
  {
    if k == 0 {
      JunctionLineAt0(k);
    } else if k == 1 {
      JunctionLineAt1(k);
    } else {
      JunctionLineAt2(k);
    }
  }

  lemma JunctionLineAt0(k: nat)
    requires k == 0
    ensures LineEffect(Plain3Lines(IdDecl, JunctionPersonalOrder, JunctionOrders)[k]) == JunctionEffects[k] && Visible(IdDecl)
  {
    assert Plain3Lines(IdDecl, JunctionPersonalOrder, JunctionOrders)[k] == "" + IdDecl + "";
    IdLine("", "");
  }

  lemma JunctionLineAt1(k: nat)
    requires k == 1
    ensures LineEffect(Plain3Lines(IdDecl, JunctionPersonalOrder, JunctionOrders)[k]) == JunctionEffects[k] && Visible(JunctionPersonalOrder)
  {
    assert Plain3Lines(IdDecl, JunctionPersonalOrder, JunctionOrders)[k] == Pad + JunctionPersonalOrder + "";
    ForeignKeyLine(Pad, "personal_order_id", "Personal_order", "");
  }

  lemma JunctionLineAt2(k: nat)
    requires k == 2
    ensures LineEffect(Plain3Lines(IdDecl, JunctionPersonalOrder, JunctionOrders)[k]) == JunctionEffects[k] && Visible(JunctionOrders)
  {
    assert Plain3Lines(IdDecl, JunctionPersonalOrder, JunctionOrders)[k] == Pad + JunctionOrders + "";
    ForeignKeyLine(Pad, "orders_id", "Orders", "");
  }
}
