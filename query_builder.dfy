/**
 * The benchmark driver `query_graph` of main.py: for every row count and
 * every query type it builds one SQL text, runs it against the database,
 * records the measured time and a label (the query without its LIMIT), and
 * finally reads the times back into one plotted series per query type.
 *
 * The database is outside the model: the current maximum id of a table and
 * the measured time of each run are parameters indexed by the position of
 * the run, (row-count index, query index).
 *
 * Python's optional list arguments are truthy exactly when they are
 * non-empty, so `None` and `[]` are both the empty sequence here.
 */
module QueryBuilder {
  import opened Wrappers
  import opened Text

  /** IndexError from a list too short for the query index; the two ValueErrors raised by the builder. */
  datatype QueryError = IndexError | MissingInsertValues | UnknownQueryType

  /** A value of an inserted row: the benchmarks insert strings and integers. */
  datatype Cell = CInt(i: int) | CStr(s: string)

  /** A dict of column name to value, in insertion order. */
  type Row = seq<(string, Cell)>

  /** One `insert_select` entry; `conditions` is the optional key. */
  datatype InsertSelect = InsertSelect(targetColumns: seq<string>, sourceColumns: seq<string>,
                                       sourceTable: string, conditions: Option<string>)

  /** The list arguments of query_graph; entry i of each belongs to query i. */
  datatype QueryArgs = QueryArgs(queryType: seq<string>, table: seq<string>, conditions: seq<string>,
                                 values: seq<seq<Row>>, join: seq<seq<string>>, orderBy: seq<string>,
                                 groupBy: seq<string>, having: seq<string>,
                                 insertSelect: seq<Option<InsertSelect>>)

  // ---------------------------------------------------------------- repr

  function HexDigit(d: nat): char
    requires d < 16
  {
    if d < 10 then DigitChar(d) else ('a' as int + d - 10) as char
  }

  /** Characters repr writes as \xhh: ASCII controls, DEL, the C1 controls, NBSP and the soft hyphen. */
  predicate HexEscaped(c: char) {
    c as int < 32 || 127 <= c as int <= 160 || c as int == 173
  }

  /** repr's choice of quote: double quotes only for a text with a single quote and no double quote. */
  function Quote(s: string): char {
    if '\'' in s && '"' !in s then '"' else '\''
  }

  function EscapeChar(c: char, q: char): (r: string)
    ensures |r| >= 1
  {
    if c == q || c == '\\' then ['\\', c]
    else if c == '\n' then "\\n"
    else if c == '\r' then "\\r"
    else if c == '\t' then "\\t"
    else if HexEscaped(c) then ['\\', 'x', HexDigit(c as int / 16), HexDigit(c as int % 16)]
    else [c]
  }

  function EscapeAll(s: string, q: char): string {
    if |s| == 0 then "" else EscapeChar(s[0], q) + EscapeAll(s[1..], q)
  }

  /** repr of a str. */
  function ReprStr(s: string): string {
    [Quote(s)] + EscapeAll(s, Quote(s)) + [Quote(s)]
  }

  /** A character repr writes as itself inside single quotes. */
  predicate Plain(c: char) {
    c != '\'' && c != '"' && c != '\\' && !HexEscaped(c)
  }

  lemma {:induction false} EscapePlain(s: string, q: char)
    requires forall k :: 0 <= k < |s| ==> Plain(s[k]) && s[k] != q
    ensures EscapeAll(s, q) == s
  {
    if |s| > 0 {
      EscapePlain(s[1..], q);
      assert [s[0]] + s[1..] == s;
    }
  }

  /** A text of plain characters is shown between single quotes, unchanged. */
  lemma ReprPlain(s: string)
    requires forall k :: 0 <= k < |s| ==> Plain(s[k])
    ensures ReprStr(s) == "'" + s + "'"
  {
    EscapePlain(s, '\'');
  }

  /** Every occurrence of the chosen quote inside the text is escaped, so it cannot end the literal. */
  lemma {:induction false} EscapedQuotes(s: string, q: char)
    requires q == '\'' || q == '"'
    ensures forall k :: 0 <= k < |EscapeAll(s, q)| && EscapeAll(s, q)[k] == q ==> k > 0 && EscapeAll(s, q)[k - 1] == '\\'
  {
    if |s| > 0 {
      EscapedQuotes(s[1..], q);
      var e, rest := EscapeChar(s[0], q), EscapeAll(s[1..], q);
      assert EscapeAll(s, q) == e + rest;
      forall k | 0 <= k < |e + rest| && (e + rest)[k] == q
        ensures k > 0 && (e + rest)[k - 1] == '\\'
      {
        if k >= |e| {
          assert rest[k - |e|] == q;
          if k - |e| == 0 {
            assert false;
          }
          assert (e + rest)[k - 1] == rest[k - |e| - 1];
        }
      }
    }
  }

  function Repr(c: Cell): string {
    match c
    case CInt(i) => IntToString(i)
    case CStr(s) => ReprStr(s)
  }

  // ---------------------------------------------------------------- pieces of a query

  /** " LIMIT {n}", the suffix of every query. */
  function Limit(n: int): string {
    " LIMIT " + IntToString(n)
  }

  /** query[:-(7+len(str(n)))]; Python gives "" when the cut is longer than the text. */
  function Label(q: string, n: int): string {
    var cut := 7 + |IntToString(n)|;
    if cut >= |q| then "" else q[..|q| - cut]
  }

  /** The label of a query is exactly the query without its LIMIT suffix. */
  lemma LabelStripsLimit(body: string, n: int)
    requires |body| > 0
    ensures Label(body + Limit(n), n) == body
    ensures Label(body + Limit(n), n) + Limit(n) == body + Limit(n)
  {
    assert |Limit(n)| == 7 + |IntToString(n)|;
    assert (body + Limit(n))[..|body|] == body;
  }

  function Head(queryType: string, table: string): string {
    if queryType == "SELECT" then "SELECT * FROM " + table else queryType + " FROM " + table
  }

  /** The JOIN clauses of a join list read as (table, condition) pairs; an odd list raises IndexError. */
  function JoinText(pairs: seq<string>): (r: Result<string, QueryError>)
    ensures r.Ok? <==> |pairs| % 2 == 0
    ensures r.Err? ==> r.error == IndexError
    decreases |pairs|
  {
    if |pairs| == 0 then Ok("")
    else if |pairs| == 1 then Err(IndexError)
    else match JoinText(pairs[2..])
      case Ok(rest) => Ok(" JOIN " + pairs[0] + " ON " + pairs[1] + rest)
      case Err(e) => Err(e)
  }

  function JoinClause(target: string, on: string): string {
    " JOIN " + target + " ON " + on
  }

  /** The k-th JOIN clause of a join list, as an independent reference for JoinText. */
  function JoinClauses(pairs: seq<string>): (r: seq<string>)
    ensures |r| == |pairs| / 2
  {
    seq(|pairs| / 2, k requires 0 <= k < |pairs| / 2 => JoinClause(pairs[2 * k], pairs[2 * k + 1]))
  }

  function Concat(parts: seq<string>): string {
    if |parts| == 0 then "" else parts[0] + Concat(parts[1..])
  }

  /** An even join list gives one " JOIN t ON c" per pair, in order. */
  lemma {:induction false} JoinTextIsPairs(pairs: seq<string>)
    requires |pairs| % 2 == 0
    ensures JoinText(pairs) == Ok(Concat(JoinClauses(pairs)))
    decreases |pairs|
  {
    if |pairs| > 0 {
      JoinTextIsPairs(pairs[2..]);
      var cs, rest := JoinClauses(pairs), JoinClauses(pairs[2..]);
      assert cs[0] == JoinClause(pairs[0], pairs[1]);
      forall k | 0 <= k < |rest|
        ensures cs[1..][k] == rest[k]
      {
        assert pairs[2..][2 * k] == pairs[2 * (k + 1)];
        assert pairs[2..][2 * k + 1] == pairs[2 * (k + 1) + 1];
      }
      assert cs[1..] == rest;
    }
  }

  /** A clause taken from an optional list: absent when the list is empty, IndexError when it is too short. */
  function Clause(keyword: string, xs: seq<string>, i: nat): (r: Result<string, QueryError>)
    ensures |keyword| > 0 ==> (r == Ok("") <==> |xs| == 0)
    ensures r.Err? <==> 0 < |xs| <= i
  {
    if |xs| == 0 then Ok("") else if i >= |xs| then Err(IndexError) else Ok(keyword + xs[i])
  }

  function Columns(row: Row): seq<string> {
    seq(|row|, k requires 0 <= k < |row| => row[k].0)
  }

  function TupleText(id: int, row: Row): string {
    "(" + IntToString(id) + ", " + Join(", ", seq(|row|, k requires 0 <= k < |row| => Repr(row[k].1))) + ")"
  }

  function Min(a: int, b: int): int {
    if a < b then a else b
  }

  /** The tuples of zip(range(n), rows): min(n, len(rows)) of them, numbered from `first` on. */
  function Tuples(rows: seq<Row>, first: int, n: int): (r: seq<string>)
    ensures |r| == if n <= 0 then 0 else Min(n, |rows|)
    ensures forall j :: 0 <= j < |r| ==> ("(" + IntToString(first + j) + ", ") <= r[j] && r[j][|r[j]| - 1] == ')'
  {
    var count := if n <= 0 then 0 else Min(n, |rows|);
    var r := seq(count, j requires 0 <= j < count => TupleText(first + j, rows[j]));
    assert forall j :: 0 <= j < count ==> r[j] == TupleText(first + j, rows[j]);
    r
  }

  // ---------------------------------------------------------------- the query text

  /** The JOIN text of query i: none without a join list. */
  function JoinsOf(a: QueryArgs, i: nat): (r: Result<string, QueryError>)
    ensures r.Err? ==> r.error == IndexError
  {
    if |a.join| == 0 then Ok("") else if i >= |a.join| then Err(IndexError) else JoinText(a.join[i])
  }

  /** WHERE, GROUP BY, HAVING and ORDER BY of query i, in that order, each from its own list. */
  function ClausesOf(a: QueryArgs, i: nat): Result<string, QueryError> {
    var where := Clause(" WHERE ", a.conditions, i);
    var groupBy := Clause(" GROUP BY ", a.groupBy, i);
    var having := Clause(" HAVING ", a.having, i);
    var orderBy := Clause(" ORDER BY ", a.orderBy, i);
    if where.Err? || groupBy.Err? || having.Err? || orderBy.Err? then Err(IndexError)
    else Ok(where.value + groupBy.value + having.value + orderBy.value)
  }

  function SelectQuery(a: QueryArgs, i: nat, n: int): Result<string, QueryError>
    requires i < |a.queryType|
  {
    if i >= |a.table| then Err(IndexError)
    else if JoinsOf(a, i).Err? || ClausesOf(a, i).Err? then Err(IndexError)
    else Ok(Head(a.queryType[i], a.table[i]) + JoinsOf(a, i).value + ClausesOf(a, i).value + Limit(n))
  }

  function InsertValuesBody(table: string, rows: seq<Row>, maxId: int, n: int): string
    requires |rows| > 0
  {
    "INSERT INTO " + table + " (id, " + Join(", ", Columns(rows[0])) + ") VALUES "
    + Join(", ", Tuples(rows, maxId + 1, n))
  }

  /** The WHERE part of an INSERT ... SELECT: present only for a given, non-empty condition. */
  function ConditionFilter(conditions: Option<string>): string {
    if conditions.Some? && conditions.value != "" then " WHERE " + conditions.value else ""
  }

  function InsertSelectBody(table: string, s: InsertSelect, maxId: int): string {
    var target := Join(", ", ["id"] + s.targetColumns);
    var source := Join(", ", [IntToString(maxId) + " + ROW_NUMBER() OVER ()"] + s.sourceColumns);
    "INSERT INTO " + table + " (" + target + ") SELECT " + source + " FROM " + s.sourceTable + ConditionFilter(s.conditions)
  }

  /** The columns that follow a leading one in a comma-joined list: none, or ", " and the rest. */
  function MoreColumns(xs: seq<string>): string {
    if |xs| == 0 then "" else ", " + Join(", ", xs)
  }

  /** A comma-joined list with a leading item starts with that item. */
  lemma JoinLeading(x: string, xs: seq<string>)
    ensures Join(", ", [x] + xs) == x + MoreColumns(xs)
  {
    if |xs| > 0 {
      assert ([x] + xs)[1..] == xs;
    }
  }

  function InsertQuery(a: QueryArgs, i: nat, n: int, maxId: int): Result<string, QueryError> {
    if |a.values| > 0 && i >= |a.values| then Err(IndexError)
    else if |a.values| > 0 && |a.values[i]| > 0 then
      if i >= |a.table| then Err(IndexError) else Ok(InsertValuesBody(a.table[i], a.values[i], maxId, n) + Limit(n))
    else if |a.insertSelect| > 0 && i >= |a.insertSelect| then Err(IndexError)
    else if |a.insertSelect| > 0 && a.insertSelect[i].Some? then
      if i >= |a.table| then Err(IndexError)
      else Ok(InsertSelectBody(a.table[i], a.insertSelect[i].value, maxId) + Limit(n))
    else Err(MissingInsertValues)
  }

  function DeleteQuery(a: QueryArgs, i: nat, n: int): Result<string, QueryError> {
    if i >= |a.table| then Err(IndexError)
    else
      var where := Clause(" WHERE ", a.conditions, i);
      if where.Err? then Err(IndexError) else Ok("DELETE FROM " + a.table[i] + where.value + Limit(n))
  }

  /** The words the query type is tested against. */
  const SelectWord := "SELECT"
  const InsertWord := "INSERT"
  const DeleteWord := "DELETE"

  /** The text query_graph builds for query i at `n` rows, given the table's current maximum id. */
  function QueryText(a: QueryArgs, i: nat, n: int, maxId: int): Result<string, QueryError>
    requires i < |a.queryType|
  {
    var t := a.queryType[i];
    if Contains(t, SelectWord) then SelectQuery(a, i, n)
    else if Contains(t, InsertWord) then InsertQuery(a, i, n, maxId)
    else if t == DeleteWord then DeleteQuery(a, i, n)
    else Err(UnknownQueryType)
  }

  /** The JOIN loop: appends " JOIN {t} ON {c}" for each pair of the list, raising IndexError on an odd one out. */
  method AppendJoins(query: string, pairs: seq<string>) returns (r: Result<string, QueryError>)
    ensures JoinText(pairs).Ok? ==> r == Ok(query + JoinText(pairs).value)
    ensures JoinText(pairs).Err? ==> r == Err(IndexError)
  {
    var text := query;
    var j := 0;
    while j < |pairs|
      invariant 0 <= j <= |pairs| && j % 2 == 0
      invariant JoinText(pairs).Ok? ==> query + JoinText(pairs).value == text + JoinText(pairs[j..]).value
      decreases |pairs| - j
    {
      if j + 1 >= |pairs| {
        return Err(IndexError);
      }
      assert pairs[j..][2..] == pairs[j + 2..];
      text := text + " JOIN " + pairs[j] + " ON " + pairs[j + 1];
      j := j + 2;
    }
    assert j == |pairs| && pairs[j..] == [];
    assert text + "" == text;
    return Ok(text);
  }

  /** `if xs: query += f"{keyword}{xs[i]}"` */
  method AppendClause(query: string, keyword: string, xs: seq<string>, i: nat) returns (r: Result<string, QueryError>)
    ensures Clause(keyword, xs, i).Ok? ==> r == Ok(query + Clause(keyword, xs, i).value)
    ensures Clause(keyword, xs, i).Err? ==> r == Err(IndexError)
  {
    if |xs| > 0 {
      if i >= |xs| {
        return Err(IndexError);
      }
      return Ok(query + (keyword + xs[i]));
    }
    assert query + "" == query;
    return Ok(query);
  }

  /** The SELECT branch of the builder: head, JOIN pairs, then the optional clauses in their fixed order. */
  method BuildSelect(a: QueryArgs, i: nat, n: int) returns (r: Result<string, QueryError>)
    requires i < |a.queryType|
    ensures r == SelectQuery(a, i, n)
  {
    var queryType := a.queryType[i];
    if i >= |a.table| {
      return Err(IndexError);
    }
    var query: string;
    if queryType == "SELECT" {
      query := "SELECT * FROM " + a.table[i];
    } else {
      query := queryType + " FROM " + a.table[i];
    }
    if |a.join| > 0 {
      if i >= |a.join| {
        return Err(IndexError);
      }
      var joined := AppendJoins(query, a.join[i]);
      if joined.Err? {
        return Err(IndexError);
      }
      query := joined.value;
    } else {
      assert query + "" == query;
    }
    assert query == Head(queryType, a.table[i]) + JoinsOf(a, i).value;
    var clauses := AppendClauses(query, a, i);
    if clauses.Err? {
      return Err(IndexError);
    }
    query := clauses.value + Limit(n);
    return Ok(query);
  }

  /** The four optional clauses appended in their fixed order; the first list too short raises IndexError. */
  method AppendClauses(query: string, a: QueryArgs, i: nat) returns (r: Result<string, QueryError>)
    ensures ClausesOf(a, i).Ok? ==> r == Ok(query + ClausesOf(a, i).value)
    ensures ClausesOf(a, i).Err? ==> r == Err(IndexError)
  {
    var where := AppendClause(query, " WHERE ", a.conditions, i);
    if where.Err? {
      return Err(IndexError);
    }
    var groupBy := AppendClause(where.value, " GROUP BY ", a.groupBy, i);
    if groupBy.Err? {
      return Err(IndexError);
    }
    var having := AppendClause(groupBy.value, " HAVING ", a.having, i);
    if having.Err? {
      return Err(IndexError);
    }
    r := AppendClause(having.value, " ORDER BY ", a.orderBy, i);
    if r.Ok? {
      ghost var w, g, h, o := Clause(" WHERE ", a.conditions, i).value, Clause(" GROUP BY ", a.groupBy, i).value,
        Clause(" HAVING ", a.having, i).value, Clause(" ORDER BY ", a.orderBy, i).value;
      assert r.value == query + w + g + h + o;
      assert query + w + g + h + o == query + (w + g + h + o);
    }
  }

  /** The INSERT branch: rows when query i has some, else an insert_select entry, else ValueError. */
  method BuildInsert(a: QueryArgs, i: nat, n: int, maxId: int) returns (r: Result<string, QueryError>)
    ensures r == InsertQuery(a, i, n, maxId)
  {
    var query: string;
    if |a.values| > 0 && i >= |a.values| {
      return Err(IndexError);
    }
    if |a.values| > 0 && |a.values[i]| > 0 {
      if i >= |a.table| {
        return Err(IndexError);
      }
      var rows := a.values[i];
      var columns := Columns(rows[0]);
      var valuesStr := Join(", ", Tuples(rows, maxId + 1, n));
      query := "INSERT INTO " + a.table[i] + " (id, " + Join(", ", columns) + ") VALUES " + valuesStr;
      assert query == InsertValuesBody(a.table[i], rows, maxId, n);
      query := query + Limit(n);
    } else if |a.insertSelect| > 0 && (i >= |a.insertSelect| || a.insertSelect[i].Some?) {
      if i >= |a.insertSelect| {
        return Err(IndexError);
      }
      var s := a.insertSelect[i].value;
      if i >= |a.table| {
        return Err(IndexError);
      }
      var targetColumns := Join(", ", ["id"] + s.targetColumns);
      var sourceColumns := Join(", ", [IntToString(maxId) + " + ROW_NUMBER() OVER ()"] + s.sourceColumns);
      query := "INSERT INTO " + a.table[i] + " (" + targetColumns + ") SELECT " + sourceColumns + " FROM " + s.sourceTable;
      ghost var head := query;
      if s.conditions.Some? && s.conditions.value != "" {
        query := query + " WHERE " + s.conditions.value;
        assert query == head + ConditionFilter(s.conditions);
      } else {
        assert query == head + ConditionFilter(s.conditions);
      }
      assert query == InsertSelectBody(a.table[i], s, maxId);
      query := query + Limit(n);
    } else {
      return Err(MissingInsertValues);
    }
    return Ok(query);
  }

  /** The DELETE branch: "DELETE FROM t", the WHERE clause when there are conditions, then LIMIT. */
  method BuildDelete(a: QueryArgs, i: nat, n: int) returns (r: Result<string, QueryError>)
    ensures r == DeleteQuery(a, i, n)
  {
    if i >= |a.table| {
      return Err(IndexError);
    }
    var query := "DELETE FROM " + a.table[i];
    if |a.conditions| > 0 {
      if i >= |a.conditions| {
        return Err(IndexError);
      }
      query := query + " WHERE " + a.conditions[i] + Limit(n);
    } else {
      query := query + Limit(n);
    }
    assert query == "DELETE FROM " + a.table[i] + Clause(" WHERE ", a.conditions, i).value + Limit(n);
    return Ok(query);
  }

  /** Builds the query text for query i at n rows, as query_graph does. */
  method BuildQuery(a: QueryArgs, i: nat, n: int, maxId: int) returns (r: Result<string, QueryError>)
    requires i < |a.queryType|
    ensures r == QueryText(a, i, n, maxId)
  {
    var queryType := a.queryType[i];
    if Contains(queryType, SelectWord) {
      r := BuildSelect(a, i, n);
    } else if Contains(queryType, InsertWord) {
      r := BuildInsert(a, i, n, maxId);
    } else if queryType == DeleteWord {
      r := BuildDelete(a, i, n);
    } else {
      r := Err(UnknownQueryType);
    }
  }

  // ---------------------------------------------------------------- what the query text promises

  /** Every query that builds ends with " LIMIT {n}", and its label is what precedes that suffix. */
  lemma QueryEndsWithLimit(a: QueryArgs, i: nat, n: int, maxId: int)
    requires i < |a.queryType| && QueryText(a, i, n, maxId).Ok?
    ensures var q := QueryText(a, i, n, maxId).value;
      |q| > |Limit(n)| && q[|q| - |Limit(n)|..] == Limit(n) && Label(q, n) + Limit(n) == q
  {
    var q := QueryText(a, i, n, maxId).value;
    var body := q[..|q| - |Limit(n)|];
    assert |q| > |Limit(n)| && q == body + Limit(n) by {
      var t := a.queryType[i];
      if Contains(t, SelectWord) {
        var s := SelectQuery(a, i, n).value;
        var h := Head(a.queryType[i], a.table[i]);
        assert |h| > 0;
      } else if Contains(t, InsertWord) {
      } else {
      }
    }
    LabelStripsLimit(body, n);
  }

  /** A SELECT query starts with its head: "SELECT * FROM t" for the bare type, else "{type} FROM t". */
  lemma SelectStartsWithHead(a: QueryArgs, i: nat, n: int, maxId: int)
    requires i < |a.queryType| && Contains(a.queryType[i], SelectWord) && QueryText(a, i, n, maxId).Ok?
    ensures i < |a.table|
    ensures a.queryType[i] == "SELECT" ==> ("SELECT * FROM " + a.table[i]) <= QueryText(a, i, n, maxId).value
    ensures a.queryType[i] != "SELECT" ==> (a.queryType[i] + " FROM " + a.table[i]) <= QueryText(a, i, n, maxId).value
  {
  }

  /** A query type matching none of the three tests is the only cause of the unknown-type ValueError. */
  lemma UnknownQueryTypeIff(a: QueryArgs, i: nat, n: int, maxId: int)
    requires i < |a.queryType|
    ensures QueryText(a, i, n, maxId) == Err(UnknownQueryType)
      <==> !Contains(a.queryType[i], SelectWord) && !Contains(a.queryType[i], InsertWord) && a.queryType[i] != DeleteWord
  {
  }

  /** An INSERT raises the missing-values ValueError exactly when query i has neither rows nor an insert_select entry. */
  lemma MissingInsertValuesIff(a: QueryArgs, i: nat, n: int, maxId: int)
    requires i < |a.queryType|
    ensures QueryText(a, i, n, maxId) == Err(MissingInsertValues)
      <==> (!Contains(a.queryType[i], SelectWord) && Contains(a.queryType[i], InsertWord)
            && (|a.values| == 0 || (i < |a.values| && |a.values[i]| == 0))
            && (|a.insertSelect| == 0 || (i < |a.insertSelect| && a.insertSelect[i].None?)))
  {
  }

  /** A type containing both words is built as a SELECT. */
  lemma SelectTestComesFirst(a: QueryArgs, i: nat, n: int, maxId: int)
    requires i < |a.queryType| && Contains(a.queryType[i], SelectWord)
    ensures QueryText(a, i, n, maxId) == SelectQuery(a, i, n)
  {
  }

  /** Every query that builds names its table, so query i builds only when table[i] exists. */
  lemma QueryUsesTable(a: QueryArgs, i: nat, n: int, maxId: int)
    requires i < |a.queryType| && QueryText(a, i, n, maxId).Ok?
    ensures i < |a.table|
  {
  }

  /**
   * An INSERT with rows lists the first row's keys after `id` and one tuple
   * per row up to n, numbered from maxId + 1 on, the first id the
   * INSERT ... SELECT form also gives (maxId + ROW_NUMBER() starts at 1).
   */
  lemma InsertValuesShape(a: QueryArgs, i: nat, n: int, maxId: int)
    requires i < |a.queryType| && !Contains(a.queryType[i], SelectWord) && Contains(a.queryType[i], InsertWord)
    requires i < |a.values| && |a.values[i]| > 0 && i < |a.table|
    ensures var ts := Tuples(a.values[i], maxId + 1, n);
      QueryText(a, i, n, maxId)
        == Ok("INSERT INTO " + a.table[i] + " (id, " + Join(", ", Columns(a.values[i][0])) + ") VALUES " + Join(", ", ts) + Limit(n))
      && |ts| == (if n <= 0 then 0 else Min(n, |a.values[i]|))
      && forall j :: 0 <= j < |ts| ==> ("(" + IntToString(maxId + 1 + j) + ", ") <= ts[j]
  {
  }

  /**
   * An INSERT with no rows for query i but an insert_select entry lists `id`
   * first among the targets and `maxId + ROW_NUMBER() OVER ()` first among
   * the sources, adds WHERE only for a given non-empty condition, and ends
   * with the LIMIT.
   */
  lemma InsertSelectShape(a: QueryArgs, i: nat, n: int, maxId: int)
    requires i < |a.queryType| && !Contains(a.queryType[i], SelectWord) && Contains(a.queryType[i], InsertWord)
    requires |a.values| == 0 || (i < |a.values| && |a.values[i]| == 0)
    requires i < |a.insertSelect| && a.insertSelect[i].Some? && i < |a.table|
    ensures var s := a.insertSelect[i].value;
      QueryText(a, i, n, maxId)
        == Ok("INSERT INTO " + a.table[i] + " (" + ("id" + MoreColumns(s.targetColumns)) + ") SELECT "
              + (IntToString(maxId) + " + ROW_NUMBER() OVER ()" + MoreColumns(s.sourceColumns))
              + " FROM " + s.sourceTable + ConditionFilter(s.conditions) + Limit(n))
  {
    var s := a.insertSelect[i].value;
    JoinLeading("id", s.targetColumns);
    JoinLeading(IntToString(maxId) + " + ROW_NUMBER() OVER ()", s.sourceColumns);
  }

  // ---------------------------------------------------------------- the benchmark loop

  /** np.linspace(10, 1500, 9) truncated to int. */
  const DefaultRowCounts: seq<int> := [10, 196, 382, 568, 755, 941, 1127, 1313, 1500]

  /** The default row counts are the nine evenly spaced points from 10 to 1500, truncated. */
  lemma DefaultRowCountsLinspace()
    ensures |DefaultRowCounts| == 9
    ensures forall k :: 0 <= k < 9 ==> DefaultRowCounts[k] == 10 + 745 * k / 4
  {
  }

  function RowCounts(numRowsList: Option<seq<int>>): seq<int> {
    if numRowsList.None? then DefaultRowCounts else numRowsList.value
  }

  /** Every query builds at every row count. */
  predicate AllBuild(a: QueryArgs, rows: seq<int>, maxIdAt: (nat, nat) -> int) {
    forall k, i :: 0 <= k < |rows| && 0 <= i < |a.queryType| ==> QueryText(a, i, rows[k], maxIdAt(k, i)).Ok?
  }

  /** Rows of equal length laid end to end. */
  function Flatten<T>(rows: seq<seq<T>>): seq<T> {
    if |rows| == 0 then [] else Flatten(rows[..|rows| - 1]) + rows[|rows| - 1]
  }

  /** Where run (k, i) lands in a list appended row count by row count. */
  function WriteAt(queries: nat, k: nat, i: nat): nat {
    k * queries + i
  }

  /** Where the plot looks for point j of series i: times[j + len(x)*i]. */
  function ReadAt(points: nat, j: nat, i: nat): nat {
    j + points * i
  }

  lemma {:induction false} FlattenIndex<T>(rows: seq<seq<T>>, w: nat, k: nat, i: nat)
    requires forall m :: 0 <= m < |rows| ==> |rows[m]| == w
    requires k < |rows| && i < w
    ensures |Flatten(rows)| == |rows| * w
    ensures WriteAt(w, k, i) < |rows| * w
    ensures Flatten(rows)[WriteAt(w, k, i)] == rows[k][i]
    decreases |rows|
  {
    var init := rows[..|rows| - 1];
    FlattenLength(init, w);
    assert |Flatten(rows)| == (|rows| - 1) * w + w;
    WriteAtBound(|rows|, w, k, i);
    if k < |rows| - 1 {
      FlattenIndex(init, w, k, i);
    } else {
      assert k * w == (|rows| - 1) * w;
    }
  }

  /** Row-major positions stay inside the table. */
  lemma WriteAtBound(n: nat, w: nat, k: nat, i: nat)
    requires k < n && i < w
    ensures WriteAt(w, k, i) < n * w
  {
    assert (k + 1) * w <= n * w;
  }

  lemma {:induction false} FlattenLength<T>(rows: seq<seq<T>>, w: nat)
    requires forall m :: 0 <= m < |rows| ==> |rows[m]| == w
    ensures |Flatten(rows)| == |rows| * w
    decreases |rows|
  {
    if |rows| > 0 {
      FlattenLength(rows[..|rows| - 1], w);
      assert (|rows| - 1) * w + w == |rows| * w;
    }
  }

  /** The times measured at row count k, one per query. */
  function TimeRow(timeAt: (nat, nat) -> real, k: nat, queries: nat): (r: seq<real>)
    ensures |r| == queries && forall i :: 0 <= i < queries ==> r[i] == timeAt(k, i)
  {
    seq(queries, i requires 0 <= i < queries => timeAt(k, i))
  }

  /** The measured times, one row per row count. */
  function TimeRows(timeAt: (nat, nat) -> real, rows: nat, queries: nat): (r: seq<seq<real>>)
    ensures |r| == rows && forall k :: 0 <= k < rows ==> r[k] == TimeRow(timeAt, k, queries)
  {
    seq(rows, k requires 0 <= k < rows => TimeRow(timeAt, k, queries))
  }

  /** The first m queries build at row count k, which has n rows. */
  predicate BuildsUpTo(a: QueryArgs, k: nat, n: int, maxIdAt: (nat, nat) -> int, m: nat) {
    forall i :: 0 <= i < m && i < |a.queryType| ==> QueryText(a, i, n, maxIdAt(k, i)).Ok?
  }

  /** Every query builds at row count k. */
  predicate RowBuilds(a: QueryArgs, k: nat, n: int, maxIdAt: (nat, nat) -> int) {
    BuildsUpTo(a, k, n, maxIdAt, |a.queryType|)
  }

  /** The labels of the first m queries at row count k. */
  function LabelsUpTo(a: QueryArgs, k: nat, n: int, maxIdAt: (nat, nat) -> int, m: nat): (r: seq<string>)
    requires m <= |a.queryType| && BuildsUpTo(a, k, n, maxIdAt, m)
    ensures |r| == m
    ensures forall i :: 0 <= i < m ==> r[i] == Label(QueryText(a, i, n, maxIdAt(k, i)).value, n)
  {
    seq(m, i requires 0 <= i < m => Label(QueryText(a, i, n, maxIdAt(k, i)).value, n))
  }

  /** The labels of row count k, one per query. */
  function NameRow(a: QueryArgs, k: nat, n: int, maxIdAt: (nat, nat) -> int): (r: seq<string>)
    requires RowBuilds(a, k, n, maxIdAt)
    ensures |r| == |a.queryType|
  {
    LabelsUpTo(a, k, n, maxIdAt, |a.queryType|)
  }

  lemma LabelsStep(a: QueryArgs, k: nat, n: int, maxIdAt: (nat, nat) -> int, m: nat, query: string)
    requires m < |a.queryType| && BuildsUpTo(a, k, n, maxIdAt, m)
    requires QueryText(a, m, n, maxIdAt(k, m)) == Ok(query)
    ensures BuildsUpTo(a, k, n, maxIdAt, m + 1)
    ensures LabelsUpTo(a, k, n, maxIdAt, m + 1) == LabelsUpTo(a, k, n, maxIdAt, m) + [Label(query, n)]
  {
    BuildsStep(a, k, n, maxIdAt, m, query);
    var longer, shorter := LabelsUpTo(a, k, n, maxIdAt, m + 1), LabelsUpTo(a, k, n, maxIdAt, m);
    forall j | 0 <= j < m + 1
      ensures longer[j] == (shorter + [Label(query, n)])[j]
    {
      if j < m {
        assert longer[j] == shorter[j];
      }
    }
  }

  lemma BuildsStep(a: QueryArgs, k: nat, n: int, maxIdAt: (nat, nat) -> int, m: nat, query: string)
    requires m < |a.queryType| && BuildsUpTo(a, k, n, maxIdAt, m)
    requires QueryText(a, m, n, maxIdAt(k, m)) == Ok(query)
    ensures BuildsUpTo(a, k, n, maxIdAt, m + 1)
  {
  }

  /** The labels, one row per row count. */
  function NameRows(a: QueryArgs, rows: seq<int>, maxIdAt: (nat, nat) -> int): (r: seq<seq<string>>)
    requires AllBuild(a, rows, maxIdAt)
    ensures |r| == |rows| && forall k :: 0 <= k < |rows| ==> |r[k]| == |a.queryType|
  {
    seq(|rows|, k requires 0 <= k < |rows| => NameRow(a, k, rows[k], maxIdAt))
  }

  /** AllBuild, row count by row count. */
  lemma AllBuildRows(a: QueryArgs, rows: seq<int>, maxIdAt: (nat, nat) -> int)
    ensures AllBuild(a, rows, maxIdAt) <==> forall k :: 0 <= k < |rows| ==> RowBuilds(a, k, rows[k], maxIdAt)
  {
  }

  /**
   * The inner loop of query_graph for row count k: each query is built,
   * run and timed, and its time and label appended.
   */
  method RunRow(a: QueryArgs, k: nat, n: int, maxIdAt: (nat, nat) -> int, timeAt: (nat, nat) -> real,
                times: seq<real>, names: seq<string>)
    returns (r: Result<(seq<real>, seq<string>), QueryError>)
    ensures r.Ok? <==> RowBuilds(a, k, n, maxIdAt)
    ensures r.Ok? ==> r.value == (times + TimeRow(timeAt, k, |a.queryType|), names + NameRow(a, k, n, maxIdAt))
    ensures r.Err? ==> exists i :: 0 <= i < |a.queryType| && QueryText(a, i, n, maxIdAt(k, i)) == Err(r.error)
  {
    var times', names' := times, names;
    var i := 0;
    while i < |a.queryType|
      invariant 0 <= i <= |a.queryType|
      invariant BuildsUpTo(a, k, n, maxIdAt, i)
      invariant times' == times + TimeRow(timeAt, k, i)
      invariant names' == names + LabelsUpTo(a, k, n, maxIdAt, i)
    {
      var query := BuildQuery(a, i, n, maxIdAt(k, i));
      if query.Err? {
        return Err(query.error);
      }
      LabelsStep(a, k, n, maxIdAt, i, query.value);
      assert TimeRow(timeAt, k, i + 1) == TimeRow(timeAt, k, i) + [timeAt(k, i)];
      times' := times' + [timeAt(k, i)];
      names' := names' + [Label(query.value, n)];
      i := i + 1;
    }
    return Ok((times', names'));
  }

  /**
   * The nested loop of query_graph: for every row count, every query is
   * built, run, timed and labelled, the results appended in that order.
   * The first query that fails to build ends the whole run with its error.
   */
  method RunQueries(a: QueryArgs, rows: seq<int>, maxIdAt: (nat, nat) -> int, timeAt: (nat, nat) -> real)
    returns (r: Result<(seq<real>, seq<string>), QueryError>)
    ensures r.Ok? <==> AllBuild(a, rows, maxIdAt)
    ensures r.Ok? ==> r.value.0 == Flatten(TimeRows(timeAt, |rows|, |a.queryType|))
    ensures r.Ok? ==> r.value.1 == Flatten(NameRows(a, rows, maxIdAt))
    ensures r.Err? ==> exists k, i :: (0 <= k < |rows| && 0 <= i < |a.queryType|
                                       && QueryText(a, i, rows[k], maxIdAt(k, i)) == Err(r.error))
  {
    var times: seq<real> := [];
    var names: seq<string> := [];
    var k := 0;
    AllBuildRows(a, rows, maxIdAt);
    while k < |rows|
      invariant 0 <= k <= |rows|
      invariant forall k' :: 0 <= k' < k ==> RowBuilds(a, k', rows[k'], maxIdAt)
      invariant AllBuild(a, rows[..k], maxIdAt)
      invariant times == Flatten(TimeRows(timeAt, k, |a.queryType|))
      invariant names == Flatten(NameRows(a, rows[..k], maxIdAt))
    {
      var run := RunRow(a, k, rows[k], maxIdAt, timeAt, times, names);
      if run.Err? {
        return Err(run.error);
      }
      NextRow(a, rows, maxIdAt, timeAt, k);
      times, names := run.value.0, run.value.1;
      k := k + 1;
    }
    assert rows[..k] == rows;
    return Ok((times, names));
  }

  /** Finishing row count k extends the flattened times and labels by that row. */
  lemma NextRow(a: QueryArgs, rows: seq<int>, maxIdAt: (nat, nat) -> int, timeAt: (nat, nat) -> real, k: nat)
    requires k < |rows| && AllBuild(a, rows[..k], maxIdAt) && RowBuilds(a, k, rows[k], maxIdAt)
    ensures AllBuild(a, rows[..k + 1], maxIdAt)
    ensures Flatten(TimeRows(timeAt, k + 1, |a.queryType|))
      == Flatten(TimeRows(timeAt, k, |a.queryType|)) + TimeRow(timeAt, k, |a.queryType|)
    ensures Flatten(NameRows(a, rows[..k + 1], maxIdAt))
      == Flatten(NameRows(a, rows[..k], maxIdAt)) + NameRow(a, k, rows[k], maxIdAt)
  {
    var q := |a.queryType|;
    var next := rows[..k + 1];
    assert next[..k] == rows[..k];
    AllBuildRows(a, rows[..k], maxIdAt);
    AllBuildRows(a, next, maxIdAt);
    assert forall k' :: 0 <= k' < k ==> next[k'] == rows[..k][k'];
    var ts := TimeRows(timeAt, k + 1, q);
    assert ts[..k] == TimeRows(timeAt, k, q);
    var ns := NameRows(a, next, maxIdAt);
    assert ns[..k] == NameRows(a, rows[..k], maxIdAt);
  }

  /** One plotted line: the row counts, the times read for it, and its label. */
  datatype Series = Series(x: seq<int>, y: seq<real>, title: string)

  lemma MulMono(a: nat, b: nat, c: nat)
    requires b <= c
    ensures a * b <= a * c
  {
  }

  lemma ReadInRange(points: nat, queries: nat, j: nat, i: nat)
    requires j < points && i < queries
    ensures ReadAt(points, j, i) < points * queries
  {
    MulMono(points, i + 1, queries);
    assert points * (i + 1) == points * i + points;
  }

  /** Series s is the one plotted for query i: the row counts, times[j + len(x)*i] at point j, and its label. */
  predicate ReadsSeries(s: Series, xs: seq<int>, title: string, times: seq<real>, i: nat) {
    s.x == xs && s.title == title && |s.y| == |xs|
    && forall j :: 0 <= j < |xs| ==> ReadAt(|xs|, j, i) < |times| && s.y[j] == times[ReadAt(|xs|, j, i)]
  }

  /** The plotting loop: series i reads times[j + len(x)*i] for point j and is labelled labels[i]. */
  method PlotSeries(times: seq<real>, xs: seq<int>, labels: seq<string>, queries: nat)
    returns (r: Result<seq<Series>, QueryError>)
    requires |times| == |xs| * queries
    ensures r.Ok? <==> queries <= |labels|
    ensures r.Err? ==> r.error == IndexError
    ensures r.Ok? ==> (|r.value| == queries
                       && forall i :: 0 <= i < queries ==> ReadsSeries(r.value[i], xs, labels[i], times, i))
  {
    var series: seq<Series> := [];
    var i := 0;
    while i < queries
      invariant 0 <= i <= queries && i <= |labels| && |series| == i
      invariant forall i' :: 0 <= i' < i ==> ReadsSeries(series[i'], xs, labels[i'], times, i')
    {
      var y: seq<real> := [];
      var j := 0;
      while j < |xs|
        invariant 0 <= j <= |xs| && |y| == j
        invariant forall j' :: 0 <= j' < j ==> ReadAt(|xs|, j', i) < |times| && y[j'] == times[ReadAt(|xs|, j', i)]
      {
        ReadInRange(|xs|, queries, j, i);
        y := y + [times[ReadAt(|xs|, j, i)]];
        j := j + 1;
      }
      if i >= |labels| {
        return Err(IndexError);
      }
      series := series + [Series(xs, y, labels[i])];
      i := i + 1;
    }
    return Ok(series);
  }

  // ---------------------------------------------------------------- the layout mismatch

  /** The read layout agrees with the write layout for every point exactly when there is one query or one row count. */
  lemma LayoutsAgree(points: nat, queries: nat)
    requires points >= 1 && queries >= 1
    ensures (forall j, i :: 0 <= j < points && 0 <= i < queries ==> ReadAt(points, j, i) == WriteAt(queries, j, i))
      <==> (points == 1 || queries == 1)
  {
    if points >= 2 && queries >= 2 {
      assert ReadAt(points, 1, 0) != WriteAt(queries, 1, 0);
    }
  }

  /** With one query or one row count, every plotted point is the time of its own run. */
  lemma SeriesShowOwnTimes(times: seq<real>, timeAt: (nat, nat) -> real, points: nat, queries: nat, j: nat, i: nat)
    requires times == Flatten(TimeRows(timeAt, points, queries))
    requires points == 1 || queries == 1
    requires j < points && i < queries
    ensures ReadAt(points, j, i) < |times| && times[ReadAt(points, j, i)] == timeAt(j, i)
  {
    FlattenIndex(TimeRows(timeAt, points, queries), queries, j, i);
  }

  /** With two of each, the second point of the first series is the second query's time at the first row count. */
  lemma SeriesMixUpTimes(times: seq<real>, timeAt: (nat, nat) -> real, points: nat, queries: nat)
    requires times == Flatten(TimeRows(timeAt, points, queries))
    requires points >= 2 && queries >= 2
    ensures times[ReadAt(points, 1, 0)] == timeAt(0, 1)
  {
    FlattenIndex(TimeRows(timeAt, points, queries), queries, 0, 1);
  }

  /** The plotted label of query i is its label at the first row count. */
  lemma LabelsOfFirstRowCount(a: QueryArgs, rows: seq<int>, maxIdAt: (nat, nat) -> int, i: nat)
    requires AllBuild(a, rows, maxIdAt) && |rows| >= 1 && i < |a.queryType|
    ensures i < |Flatten(NameRows(a, rows, maxIdAt))|
    ensures Flatten(NameRows(a, rows, maxIdAt))[i] == Label(QueryText(a, i, rows[0], maxIdAt(0, i)).value, rows[0])
  {
    var nr := NameRows(a, rows, maxIdAt);
    assert RowBuilds(a, 0, rows[0], maxIdAt);
    assert nr[0] == LabelsUpTo(a, 0, rows[0], maxIdAt, |a.queryType|);
    FlattenIndex(nr, |a.queryType|, 0, i);
    assert WriteAt(|a.queryType|, 0, i) == i;
  }

  /**
   * query_graph of main.py: run every query at every row count, then plot
   * one series per query labelled with its LIMIT-less text. With no row
   * counts there are no labels, so any query makes the plot raise IndexError.
   */
  method QueryGraph(a: QueryArgs, numRowsList: Option<seq<int>>, maxIdAt: (nat, nat) -> int, timeAt: (nat, nat) -> real)
    returns (r: Result<seq<Series>, QueryError>)
    ensures var rows := RowCounts(numRowsList);
      r.Ok? <==> AllBuild(a, rows, maxIdAt) && (|a.queryType| == 0 || |rows| > 0)
    ensures var rows := RowCounts(numRowsList);
      r.Ok? ==> |r.value| == |a.queryType| && forall i :: 0 <= i < |a.queryType| ==>
        ReadsSeries(r.value[i], rows, Label(QueryText(a, i, rows[0], maxIdAt(0, i)).value, rows[0]),
                    Flatten(TimeRows(timeAt, |rows|, |a.queryType|)), i)
  {
    var rows := RowCounts(numRowsList);
    var run := RunQueries(a, rows, maxIdAt, timeAt);
    if run.Err? {
      return Err(run.error);
    }
    var (times, names) := run.value;
    FlattenLength(TimeRows(timeAt, |rows|, |a.queryType|), |a.queryType|);
    FlattenLength(NameRows(a, rows, maxIdAt), |a.queryType|);
    r := PlotSeries(times, rows, names, |a.queryType|);
    if r.Ok? {
      forall i | 0 <= i < |a.queryType|
        ensures names[i] == Label(QueryText(a, i, rows[0], maxIdAt(0, i)).value, rows[0])
      {
        LabelsOfFirstRowCount(a, rows, maxIdAt, i);
      }
    }
  }
}
