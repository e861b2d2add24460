/**
 * The declaration parser of the mapping layer (ModelMeta.parse_docstring in
 * lib/orm_classes.py): every line of a model's docstring of the shape
 * `name: Kind(params)` becomes a column or a many-to-many pair.
 */
module OrmParser {
  import opened Wrappers
  import opened Text
  import opened Values
  import opened OrmFields
  import opened OrderedMaps

  /** What ModelMeta stores as `_meta`: the columns in declaration order and the many-to-many pairs. */
  datatype Schema = Schema(columns: seq<(string, Field)>, manyToMany: seq<(string, string)>)

  // ---------------------------------------------------------------- the line grammar

  predicate IsWord(w: string) {
    w != "" && forall i :: 0 <= i < |w| ==> IsWordChar(w[i])
  }

  /** `\w+` taken greedily at the start of s ("" when s does not start with a word character). */
  function WordPrefix(s: string): (w: string)
    ensures |w| <= |s| && w == s[..|w|] && (forall i :: 0 <= i < |w| ==> IsWordChar(w[i]))
    ensures |w| < |s| ==> !IsWordChar(s[|w|])
  {
    if |s| == 0 || !IsWordChar(s[0]) then "" else [s[0]] + WordPrefix(s[1..])
  }

  /** `\s*` taken greedily at the start of s. */
  function SpacePrefix(s: string): (w: string)
    ensures |w| <= |s| && w == s[..|w|] && AllSpace(w)
    ensures |w| < |s| ==> !IsSpace(s[|w|])
  {
    if |s| == 0 || !IsSpace(s[0]) then "" else [s[0]] + SpacePrefix(s[1..])
  }

  function FirstIndex(s: string, c: char): (i: nat)
    requires c in s
    ensures i < |s| && s[i] == c && c !in s[..i]
  {
    if s[0] == c then 0 else 1 + FirstIndex(s[1..], c)
  }

  /** The optional group `(?:\((.*?)\))?`: the text between '(' and the first ')', if both are there. */
  function ParamsGroup(tail: string): Option<string> {
    if |tail| > 0 && tail[0] == '(' && ')' in tail[1..]
    then Some(tail[1..1 + FirstIndex(tail[1..], ')')])
    else None
  }

  datatype LineMatch = LineMatch(name: string, kind: string, params: Option<string>)

  /** re.match(r"(\w+):\s*(\w+)(?:\((.*?)\))?", line) and its three groups. */
  function MatchLine(line: string): Option<LineMatch> {
    var name := WordPrefix(line);
    if name == "" || |name| == |line| || line[|name|] != ':' then None
    else
      var afterColon := line[|name| + 1..];
      var rest := afterColon[|SpacePrefix(afterColon)|..];
      var kind := WordPrefix(rest);
      if kind == "" then None
      else Some(LineMatch(name, kind, ParamsGroup(rest[|kind|..])))
  }

  lemma {:induction false} WordPrefixOf(w: string, rest: string)
    requires forall i :: 0 <= i < |w| ==> IsWordChar(w[i])
    requires rest == "" || !IsWordChar(rest[0])
    ensures WordPrefix(w + rest) == w
  {
    if |w| > 0 {
      assert (w + rest)[1..] == w[1..] + rest;
      WordPrefixOf(w[1..], rest);
    } else {
      assert w + rest == rest;
    }
  }

  lemma {:induction false} SpacePrefixOf(w: string, rest: string)
    requires AllSpace(w)
    requires rest == "" || !IsSpace(rest[0])
    ensures SpacePrefix(w + rest) == w
  {
    if |w| > 0 {
      assert (w + rest)[1..] == w[1..] + rest;
      SpacePrefixOf(w[1..], rest);
    } else {
      assert w + rest == rest;
    }
  }

  /** The parameter group of `(params)` followed by anything is params, when params holds no ')'. */
  lemma ParamsGroupOf(params: string, trailer: string)
    requires ')' !in params
    ensures ParamsGroup("(" + params + ")" + trailer) == Some(params)
  {
    var tail := "(" + params + ")" + trailer;
    var inner := tail[1..];
    assert inner == params + ")" + trailer;
    assert inner[|params|] == ')';
    var i := FirstIndex(inner, ')');
    assert i == |params|;
    assert tail[1..1 + i] == inner[..i] == params;
  }

  /**
   * A declaration line `name:<spaces>Kind(params)` followed by anything is
   * matched with exactly those three groups, provided params holds no ')'.
   */
  lemma MatchesDeclaration(name: string, spaces: string, kind: string, params: string, trailer: string)
    requires IsWord(name) && IsWord(kind) && AllSpace(spaces) && ')' !in params
    ensures MatchLine(name + ":" + spaces + kind + "(" + params + ")" + trailer)
            == Some(LineMatch(name, kind, Some(params)))
  {
    var tail := "(" + params + ")" + trailer;
    var rest := kind + tail;
    var afterColon := spaces + rest;
    var line := name + (":" + afterColon);
    assert line == name + ":" + spaces + kind + "(" + params + ")" + trailer;
    WordPrefixOf(name, ":" + afterColon);
    assert line[|name| + 1..] == afterColon;
    SpacePrefixOf(spaces, rest);
    assert afterColon[|spaces|..] == rest;
    WordPrefixOf(kind, tail);
    assert rest[|kind|..] == tail;
    ParamsGroupOf(params, trailer);
  }

  /** A matched line starts with its name and a colon, and both groups are words. */
  lemma MatchedLineShape(line: string)
    requires MatchLine(line).Some?
    ensures var m := MatchLine(line).value;
      IsWord(m.name) && IsWord(m.kind) && m.name + ":" <= line
  {
    var m := MatchLine(line).value;
    assert line[..|m.name| + 1] == m.name + ":";
  }

  // ---------------------------------------------------------------- parameter extraction

  /** int(re.search(key + r"(\d+)", s).group(1)): the digits after the first `key` followed by a digit. */
  function SearchNumber(s: string, key: string): Option<nat>
    decreases |s|
  {
    if key <= s && |key| < |s| && IsDigit(s[|key|]) then Some(DigitsValue(LeadingDigits(s[|key|..])))
    else if |s| == 0 then None
    else SearchNumber(s[1..], key)
  }

  lemma {:induction false} LeadingDigitsOf(ds: string, rest: string)
    requires AllDigits(ds)
    requires rest == "" || !IsDigit(rest[0])
    ensures LeadingDigits(ds + rest) == ds
  {
    if |ds| > 0 {
      assert (ds + rest)[1..] == ds[1..] + rest;
      LeadingDigitsOf(ds[1..], rest);
    } else {
      assert ds + rest == rest;
    }
  }

  /** Writing `key` then a number at the start of the parameters is read back as that number. */
  lemma SearchNumberReadsWritten(key: string, n: nat, rest: string)
    requires rest == "" || !IsDigit(rest[0])
    ensures SearchNumber(key + NatToString(n) + rest, key) == Some(n)
  {
    var s := key + NatToString(n) + rest;
    assert key <= s;
    assert s[|key|..] == NatToString(n) + rest;
    LeadingDigitsOf(NatToString(n), rest);
    DigitsValueOfNatToString(n);
  }

  /** A number searched for after a text that cannot start `key` is searched for in what follows. */
  lemma {:induction false} SearchNumberSkips(a: string, s: string, key: string)
    requires |key| > 0 && key[0] !in a
    ensures SearchNumber(a + s, key) == SearchNumber(s, key)
  {
    if |a| == 0 {
      assert a + s == s;
    } else {
      assert (a + s)[0] == a[0];
      assert (a + s)[1..] == a[1..] + s;
      SearchNumberSkips(a[1..], s, key);
    }
  }

  // ---------------------------------------------------------------- the effect of one line

  /** What one line contributes: nothing, a column, or a many-to-many pair. */
  datatype Effect = NoEffect | Column(name: string, field: Field) | Relation(name: string, target: string)

  /**
   * The branch of parse_docstring taken for one line. CharField, ForeignKey
   * and ManyToManyField lines without a parenthesised group fail, as does a
   * CharField whose parameters mention words_count without `words_count=<digits>`.
   */
  function LineEffect(line: string): Result<Effect, OrmError> {
    match MatchLine(Strip(line))
    case None => Ok(NoEffect)
    case Some(m) => DeclarationEffect(m.name, m.kind, m.params)
  }

  /** The branch taken for a matched line, by its kind group. */
  function DeclarationEffect(name: string, kind: string, params: Option<string>): Result<Effect, OrmError> {
      var text := if params.Some? then params.value else "";
      var pk := Contains(text, "primary_key=True");
      if kind == "IntegerField" then Ok(Column(name, IntegerField(pk, None, VNone, VNone)))
      else if kind == "CharField" then
        if params.None? then Err(TypeError(name))
        else
          var found := SearchNumber(text, "max_length=");
          var maxLength := if found.Some? then found.value else 255;
          if !Contains(text, "words_count") then Ok(Column(name, CharField(maxLength, pk, None, map[])))
          else
            var wc := SearchNumber(text, "words_count=");
            if wc.None? then Err(AttributeError(name))
            else Ok(Column(name, CharField(maxLength, pk, None, map["words_count" := VInt(wc.value)])))
      else if kind == "FloatField" then Ok(Column(name, FloatField(false, None, VNone, VNone)))
      else if kind == "ForeignKey" then
        if params.None? then Err(AttributeError(name)) else Ok(Column(name, ForeignKey(AfterLast(text, '='))))
      else if kind == "ManyToManyField" then
        if params.None? then Err(AttributeError(name)) else Ok(Relation(name, AfterLast(text, '=')))
      else Ok(NoEffect)
  }

  /** A declaration `name: Kind(params)` as the model classes write them. */
  function Declaration(name: string, kind: string, params: string): string {
    name + ":" + " " + kind + "(" + params + ")"
  }

  /** A declaration, whatever whitespace surrounds it on its line, is matched with its own groups. */
  lemma DeclarationLineEffect(lead: string, name: string, kind: string, params: string, trail: string)
    requires AllSpace(lead) && AllSpace(trail)
    requires IsWord(name) && IsWord(kind) && ')' !in params
    ensures LineEffect(lead + Declaration(name, kind, params) + trail) == DeclarationEffect(name, kind, Some(params))
  {
    DeclarationLineMatch(lead, name, kind, params, trail);
    LineEffectOfMatch(lead + Declaration(name, kind, params) + trail, LineMatch(name, kind, Some(params)));
  }

  lemma DeclarationLineMatch(lead: string, name: string, kind: string, params: string, trail: string)
    requires AllSpace(lead) && AllSpace(trail)
    requires IsWord(name) && IsWord(kind) && ')' !in params
    ensures MatchLine(Strip(lead + Declaration(name, kind, params) + trail)) == Some(LineMatch(name, kind, Some(params)))
  {
    StripDeclaration(lead, name, kind, params, trail);
    MatchDeclaration(name, kind, params);
  }

  /** Stripping the line leaves the declaration itself. */
  lemma StripDeclaration(lead: string, name: string, kind: string, params: string, trail: string)
    requires AllSpace(lead) && AllSpace(trail) && IsWord(name)
    ensures Strip(lead + Declaration(name, kind, params) + trail) == Declaration(name, kind, params)
  {
    var d := Declaration(name, kind, params);
    assert d[0] == name[0] && d[|d| - 1] == ')';
    StripPadded(lead, d, trail);
  }

  lemma MatchDeclaration(name: string, kind: string, params: string)
    requires IsWord(name) && IsWord(kind) && ')' !in params
    ensures MatchLine(Declaration(name, kind, params)) == Some(LineMatch(name, kind, Some(params)))
  {
    MatchesDeclaration(name, " ", kind, params, "");
    var x := name + ":" + " " + kind + "(" + params + ")";
    assert x + "" == x;
  }

  lemma LineEffectOfMatch(line: string, m: LineMatch)
    requires MatchLine(Strip(line)) == Some(m)
    ensures LineEffect(line) == DeclarationEffect(m.name, m.kind, m.params)
  {
  }

  /** A blank line declares nothing. */
  lemma BlankLineEffect(line: string)
    requires AllSpace(line)
    ensures LineEffect(line) == Ok(NoEffect)
  {
    LStripSpaces(line, "");
    assert line + "" == line;
  }

  // ---------------------------------------------------------------- what each kind of declaration yields

  /** `IntegerField(primary_key=True)` gives a primary-key INTEGER column with no bounds. */
  lemma PrimaryKeyDeclaration(name: string)
    ensures DeclarationEffect(name, "IntegerField", Some("primary_key=True"))
      == Ok(Column(name, IntegerField(true, None, VNone, VNone)))
  {
    ContainsInfix("", "primary_key=True", "");
    assert "" + "primary_key=True" + "" == "primary_key=True";
  }

  /**
   * An IntegerField whose parameters do not contain `primary_key=True` keeps
   * none of them: min_value and max_value are dropped. One that does is a
   * primary key, wherever the text stands among the parameters.
   */
  lemma IntegerDeclarationDropsBounds(name: string, params: string)
    ensures !Contains(params, "primary_key=True") ==>
      DeclarationEffect(name, "IntegerField", Some(params)) == Ok(Column(name, IntegerField(false, None, VNone, VNone)))
    ensures Contains(params, "primary_key=True") ==>
      DeclarationEffect(name, "IntegerField", Some(params)) == Ok(Column(name, IntegerField(true, None, VNone, VNone)))
  {
  }

  /** A FloatField keeps none of its parameters, not even primary_key. */
  lemma FloatDeclarationDropsAll(name: string, params: Option<string>)
    ensures DeclarationEffect(name, "FloatField", params)
      == Ok(Column(name, FloatField(false, None, VNone, VNone)))
  {
  }

  /** `CharField(max_length=n)` gives a VARCHAR(n) column without words_count. */
  lemma CharDeclaration(name: string, n: nat)
    ensures DeclarationEffect(name, "CharField", Some("max_length=" + NatToString(n)))
      == Ok(Column(name, CharField(n, false, None, map[])))
  {
    var text := "max_length=" + NatToString(n);
    assert 'p' !in text && 'w' !in text by {
      assert forall c :: c in NatToString(n) ==> IsDigit(c);
    }
    NotContainsFirstChar(text, "primary_key=True");
    NotContainsFirstChar(text, "words_count");
    SearchNumberReadsWritten("max_length=", n, "");
    assert "max_length=" + NatToString(n) + "" == text;
  }

  /** `CharField(max_length=n, words_count=w)` gives a VARCHAR(n) column that requires w words. */
  lemma CharWordsDeclaration(name: string, n: nat, w: nat)
    ensures DeclarationEffect(name, "CharField", Some(WordsParams(n, w)))
      == Ok(Column(name, CharField(n, false, None, map["words_count" := VInt(w)])))
  {
    var text := WordsParams(n, w);
    assert !Contains(text, "primary_key=True") by {
      WordsParamsLetters(n, w);
      NotContainsFirstChar(text, "primary_key=True");
    }
    WordsParamsMaxLength(n, w);
    WordsParamsWordsCount(n, w);
    WordsCountDeclaration(name, text, n, w);
  }

  /** The parameters `max_length=n, words_count=w`. */
  function WordsParams(n: nat, w: nat): string {
    "max_length=" + NatToString(n) + ", words_count=" + NatToString(w)
  }

  lemma WordsParamsLetters(n: nat, w: nat)
    ensures 'p' !in WordsParams(n, w)
    ensures 'w' !in "max_length=" + NatToString(n) + ", "
  {
    assert forall c :: c in NatToString(n) ==> IsDigit(c);
    assert forall c :: c in NatToString(w) ==> IsDigit(c);
  }

  lemma WordsParamsMaxLength(n: nat, w: nat)
    ensures SearchNumber(WordsParams(n, w), "max_length=") == Some(n)
  {
    SearchNumberReadsWritten("max_length=", n, ", words_count=" + NatToString(w));
    assert "max_length=" + NatToString(n) + (", words_count=" + NatToString(w)) == WordsParams(n, w);
  }

  lemma WordsParamsWordsCount(n: nat, w: nat)
    ensures Contains(WordsParams(n, w), "words_count")
    ensures SearchNumber(WordsParams(n, w), "words_count=") == Some(w)
  {
    var head := "max_length=" + NatToString(n) + ", ";
    var tail := "words_count=" + NatToString(w);
    assert WordsParams(n, w) == head + tail;
    WordsParamsLetters(n, w);
    assert Contains(head + tail, "words_count") by {
      ContainsInfix(head, "words_count", "=" + NatToString(w));
      assert head + "words_count" + ("=" + NatToString(w)) == head + tail;
    }
    SearchNumberSkips(head, tail, "words_count=");
    SearchNumberReadsWritten("words_count=", w, "");
    assert tail + "" == tail;
  }

  lemma WordsCountDeclaration(name: string, text: string, n: nat, w: nat)
    requires !Contains(text, "primary_key=True") && SearchNumber(text, "max_length=") == Some(n)
    requires Contains(text, "words_count") && SearchNumber(text, "words_count=") == Some(w)
    ensures DeclarationEffect(name, "CharField", Some(text))
      == Ok(Column(name, CharField(n, false, None, map["words_count" := VInt(w)])))
  {
  }

  /** `ForeignKey(to=T)` references T, the raw text after '=' with any quotes kept. */
  lemma ForeignKeyDeclaration(name: string, target: string)
    requires '=' !in target
    ensures DeclarationEffect(name, "ForeignKey", Some("to=" + target)) == Ok(Column(name, ForeignKey(target)))
  {
    SplitAfterFirst("to", '=', target);
    SplitNoSeparator(target, '=');
    assert "to" + ['='] + target == "to=" + target;
  }

  /** `ManyToManyField(related_name=T)` pairs the column name with T, quotes kept. */
  lemma ManyToManyDeclaration(name: string, key: string, target: string)
    requires '=' !in key && '=' !in target
    ensures DeclarationEffect(name, "ManyToManyField", Some(key + "=" + target)) == Ok(Relation(name, target))
  {
    SplitAfterFirst(key, '=', target);
    SplitNoSeparator(target, '=');
    assert key + ['='] + target == key + "=" + target;
  }

  function ApplyEffect(s: Schema, e: Effect): Schema {
    match e
    case NoEffect => s
    case Column(n, f) => s.(columns := Assign(s.columns, n, f))
    case Relation(n, t) => s.(manyToMany := s.manyToMany + [(n, t)])
  }

  /** The effect of every line, in order. */
  function Effects(lines: seq<string>): (es: seq<Result<Effect, OrmError>>)
    ensures |es| == |lines|
    ensures forall k :: 0 <= k < |lines| ==> es[k] == LineEffect(lines[k])
  {
    seq(|lines|, k requires 0 <= k < |lines| => LineEffect(lines[k]))
  }

  /** The result of applying the line effects in order, stopping at the first error. */
  function ParseEffects(es: seq<Result<Effect, OrmError>>): Result<Schema, OrmError> {
    if |es| == 0 then Ok(Schema([], []))
    else
      match ParseEffects(es[..|es| - 1])
      case Err(e) => Err(e)
      case Ok(s) =>
        match es[|es| - 1]
        case Err(e) => Err(e)
        case Ok(eff) => Ok(ApplyEffect(s, eff))
  }

  /** `docstring.strip().split("\n")` */
  function DocLines(doc: string): seq<string> {
    Split(Strip(doc), '\n')
  }

  /** What ModelMeta.parse_docstring produces for a docstring. */
  function ParseDoc(doc: string): Result<Schema, OrmError> {
    ParseEffects(Effects(DocLines(doc)))
  }

  /**
   * ModelMeta.parse_docstring: fills `columns` and `many_to_many` line by
   * line; a line that raises aborts the whole declaration.
   */
  method ParseDocstring(doc: string) returns (r: Result<Schema, OrmError>)
    ensures r == ParseDoc(doc)
  {
    var lines := Split(Strip(doc), '\n');
    ghost var es := Effects(lines);
    var columns: seq<(string, Field)> := [];
    var manyToMany: seq<(string, string)> := [];
    for k := 0 to |lines|
      invariant ParseEffects(es[..k]) == Ok(Schema(columns, manyToMany))
    {
      var effect := LineEffect(lines[k]);
      assert effect == es[k];
      ParseStep(es, k);
      if effect.Err? {
        ErrorPersists(es, k + 1);
        return Err(effect.error);
      }
      var schema := ApplyEffect(Schema(columns, manyToMany), effect.value);
      columns, manyToMany := schema.columns, schema.manyToMany;
    }
    assert es[..|lines|] == es;
    return Ok(Schema(columns, manyToMany));
  }

  /** The effects of given lines are known once the effect of each line is. */
  lemma EffectsOfLines(lines: seq<string>, es: seq<Result<Effect, OrmError>>)
    requires |lines| == |es|
    requires forall k :: 0 <= k < |lines| ==> LineEffect(lines[k]) == es[k]
    ensures Effects(lines) == es
  {
  }

  /** A successful parse followed by one more line that succeeds applies that line's effect. */
  lemma ParseEffectsSnoc(es: seq<Result<Effect, OrmError>>, e: Effect)
    requires ParseEffects(es).Ok?
    ensures ParseEffects(es + [Ok(e)]) == Ok(ApplyEffect(ParseEffects(es).value, e))
  {
    assert (es + [Ok(e)])[..|es|] == es;
  }

  /** One more effect: it is applied to the schema parsed so far, or its error is the result. */
  lemma ParseStep(es: seq<Result<Effect, OrmError>>, k: nat)
    requires k < |es| && ParseEffects(es[..k]).Ok?
    ensures ParseEffects(es[..k + 1]) == match es[k]
      case Err(e) => Err(e)
      case Ok(eff) => Ok(ApplyEffect(ParseEffects(es[..k]).value, eff))
  {
    assert es[..k + 1][..k] == es[..k];
  }

  /** Once a prefix fails, the whole parse fails with the same error. */
  lemma {:induction false} ErrorPersists(es: seq<Result<Effect, OrmError>>, k: nat)
    requires k <= |es| && ParseEffects(es[..k]).Err?
    ensures ParseEffects(es) == ParseEffects(es[..k])
    decreases |es| - k
  {
    if k < |es| {
      assert es[..k + 1][..k] == es[..k];
      ErrorPersists(es, k + 1);
    } else {
      assert es[..k] == es;
    }
  }

  // ---------------------------------------------------------------- what the parse yields

  /** The column an effect declares, if any. */
  function ColumnOf(r: Result<Effect, OrmError>): seq<(string, Field)> {
    if r.Ok? && r.value.Column? then [(r.value.name, r.value.field)] else []
  }

  /** The many-to-many pair an effect declares, if any. */
  function RelationOf(r: Result<Effect, OrmError>): seq<(string, string)> {
    if r.Ok? && r.value.Relation? then [(r.value.name, r.value.target)] else []
  }

  /** The (name, field) pairs of the column lines, in line order, duplicates kept. */
  function ColumnDecls(es: seq<Result<Effect, OrmError>>): seq<(string, Field)> {
    if |es| == 0 then [] else ColumnDecls(es[..|es| - 1]) + ColumnOf(es[|es| - 1])
  }

  /** The (name, target) pairs of the ManyToManyField lines, in line order. */
  function RelationDecls(es: seq<Result<Effect, OrmError>>): seq<(string, string)> {
    if |es| == 0 then [] else RelationDecls(es[..|es| - 1]) + RelationOf(es[|es| - 1])
  }

  /** Line k is the first line that raises. */
  predicate FirstFailure(es: seq<Result<Effect, OrmError>>, k: int) {
    0 <= k < |es| && es[k].Err? && forall j :: 0 <= j < k ==> es[j].Ok?
  }

  /** Parsing succeeds exactly when no line raises. */
  lemma {:induction false} ParseSucceedsIff(es: seq<Result<Effect, OrmError>>)
    ensures ParseEffects(es).Ok? <==> forall k :: 0 <= k < |es| ==> es[k].Ok?
  {
    if |es| > 0 {
      var init := es[..|es| - 1];
      ParseSucceedsIff(init);
      assert forall k :: 0 <= k < |init| ==> init[k] == es[k];
    }
  }

  /** A failed parse reports the error of the first line that raises. */
  lemma {:induction false} ParseFailsAtFirstError(es: seq<Result<Effect, OrmError>>)
    requires ParseEffects(es).Err?
    ensures exists k :: FirstFailure(es, k) && es[k].error == ParseEffects(es).error
  {
    var init := es[..|es| - 1];
    assert forall k :: 0 <= k < |init| ==> init[k] == es[k];
    if ParseEffects(init).Err? {
      ParseFailsAtFirstError(init);
      var k :| FirstFailure(init, k) && init[k].error == ParseEffects(init).error;
      assert FirstFailure(es, k);
    } else {
      ParseSucceedsIff(init);
      assert FirstFailure(es, |es| - 1);
    }
  }

  /**
   * A successful parse holds the dict built by assigning the column lines in
   * order, and the many-to-many list of the relation lines in order.
   */
  lemma {:induction false} ParseResult(es: seq<Result<Effect, OrmError>>)
    requires ParseEffects(es).Ok?
    ensures ParseEffects(es).value == Schema(AssignAll(ColumnDecls(es)), RelationDecls(es))
  {
    if |es| > 0 {
      var init := es[..|es| - 1];
      var effect := es[|es| - 1];
      assert ParseEffects(init).Ok?;
      ParseResult(init);
      var s := ParseEffects(init).value;
      assert ParseEffects(es) == Ok(ApplyEffect(s, effect.value));
      var cs := ColumnDecls(init);
      assert ColumnDecls(es) == cs + ColumnOf(effect);
      assert RelationDecls(es) == RelationDecls(init) + RelationOf(effect);
      if effect.value.Column? {
        AssignAllSnoc(cs, effect.value.name, effect.value.field);
      } else {
        assert cs + ColumnOf(effect) == cs;
      }
    }
  }

  /**
   * The parsed columns: each name once, in order of first declaration; a
   * name is a column exactly when some line declares it a column; its field
   * is the one from the last such line.
   */
  lemma ParsedColumns(es: seq<Result<Effect, OrmError>>)
    requires ParseEffects(es).Ok?
    ensures var cols := ParseEffects(es).value.columns;
      && Keys(cols) == Dedup(Keys(ColumnDecls(es)))
      && Distinct(Keys(cols))
      && (forall n :: n in Keys(cols) <==> n in Keys(ColumnDecls(es)))
      && (forall n :: Lookup(cols, n) == LastValue(ColumnDecls(es), n))
  {
    ParseResult(es);
    AssignAllKeys(ColumnDecls(es));
    DedupDistinct(Keys(ColumnDecls(es)));
    forall n ensures Lookup(ParseEffects(es).value.columns, n) == LastValue(ColumnDecls(es), n) {
      AssignAllLookup(ColumnDecls(es), n);
    }
  }
}
