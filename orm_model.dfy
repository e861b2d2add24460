/**
 * Model classes, their instances and the statements they send to the store
 * (ModelMeta.__new__ and Model in lib/orm_classes.py). The store itself is
 * an Executor that records every statement and answers from a function
 * fixed when it is created.
 */
module OrmModel {
  import opened Wrappers
  import opened Text
  import opened Values
  import opened OrmFields
  import opened OrmParser
  import opened OrderedMaps

  // ---------------------------------------------------------------- the registry

  /** A model class: its name and the `_meta` parsed from its docstring. */
  datatype ModelClass = ModelClass(name: string, meta: Schema)

  /** `attrs.get("__doc__", "")`: a class without a docstring parses the empty text. */
  function DocText(doc: Option<string>): string {
    if doc.Some? then doc.value else ""
  }

  /** Each declaration's name with the outcome of parsing its docstring. */
  function Definitions(decls: seq<(string, Option<string>)>): (ds: seq<(string, Result<Schema, OrmError>)>)
    ensures |ds| == |decls|
    ensures forall i :: 0 <= i < |decls| ==> ds[i] == (decls[i].0, ParseDoc(DocText(decls[i].1)))
  {
    seq(|decls|, i requires 0 <= i < |decls| => (decls[i].0, ParseDoc(DocText(decls[i].1))))
  }

  /**
   * The model classes defined one after the other. The base class "Model"
   * gets no `_meta` and is not a table; a docstring that fails to parse
   * stops the definitions.
   */
  function Collect(ds: seq<(string, Result<Schema, OrmError>)>): Result<seq<ModelClass>, OrmError> {
    if |ds| == 0 then Ok([])
    else
      match Collect(ds[..|ds| - 1])
      case Err(e) => Err(e)
      case Ok(ms) =>
        var (name, parsed) := ds[|ds| - 1];
        if name == "Model" then Ok(ms)
        else
          match parsed
          case Err(e) => Err(e)
          case Ok(meta) => Ok(ms + [ModelClass(name, meta)])
  }

  /** The registry of class declarations (name and docstring) given in definition order. */
  function Registry(decls: seq<(string, Option<string>)>): Result<seq<ModelClass>, OrmError> {
    Collect(Definitions(decls))
  }

  /** The names other than "Model", in order. */
  function TableNames(names: seq<string>): seq<string> {
    if |names| == 0 then []
    else TableNames(names[..|names| - 1]) + if names[|names| - 1] == "Model" then [] else [names[|names| - 1]]
  }

  function ClassNames(ms: seq<ModelClass>): (ns: seq<string>)
    ensures |ns| == |ms| && forall i :: 0 <= i < |ms| ==> ns[i] == ms[i].name
  {
    seq(|ms|, i requires 0 <= i < |ms| => ms[i].name)
  }

  /** The names of (name, ...) pairs, in order. */
  function Firsts<B>(ps: seq<(string, B)>): (ns: seq<string>)
    ensures |ns| == |ps| && forall i :: 0 <= i < |ps| ==> ns[i] == ps[i].0
  {
    seq(|ps|, i requires 0 <= i < |ps| => ps[i].0)
  }

  /** One class per definition other than "Model", in definition order. */
  lemma {:induction false} CollectNames(ds: seq<(string, Result<Schema, OrmError>)>)
    requires Collect(ds).Ok?
    ensures ClassNames(Collect(ds).value) == TableNames(Firsts(ds))
  {
    if |ds| > 0 {
      var init := ds[..|ds| - 1];
      CollectNames(init);
      var ms := Collect(init).value;
      assert Firsts(ds)[..|ds| - 1] == Firsts(init);
      if ds[|ds| - 1].0 != "Model" {
        var m := ModelClass(ds[|ds| - 1].0, ds[|ds| - 1].1.value);
        assert Collect(ds).value == ms + [m];
        assert ClassNames(ms + [m]) == ClassNames(ms) + [m.name];
      }
    }
  }

  /** Each collected class carries the schema parsed for its definition. */
  lemma {:induction false} CollectMeta(ds: seq<(string, Result<Schema, OrmError>)>)
    requires Collect(ds).Ok?
    ensures forall m :: m in Collect(ds).value ==>
      exists i :: 0 <= i < |ds| && ds[i] == (m.name, Ok(m.meta))
  {
    if |ds| > 0 {
      var init := ds[..|ds| - 1];
      CollectMeta(init);
      var ms := Collect(init).value;
      forall m | m in Collect(ds).value
        ensures exists i :: 0 <= i < |ds| && ds[i] == (m.name, Ok(m.meta))
      {
        if m in ms {
          var i :| 0 <= i < |init| && init[i] == (m.name, Ok(m.meta));
          assert ds[i] == init[i];
        } else {
          assert ds[|ds| - 1] == (m.name, Ok(m.meta));
        }
      }
    }
  }

  /**
   * The registry holds one class per declaration other than "Model", in
   * definition order, and each class's `_meta` is what its docstring parses to.
   */
  lemma RegistryMeaning(decls: seq<(string, Option<string>)>)
    requires Registry(decls).Ok?
    ensures ClassNames(Registry(decls).value) == TableNames(Firsts(decls))
    ensures forall m :: m in Registry(decls).value ==>
      exists i :: 0 <= i < |decls| && decls[i].0 == m.name && ParseDoc(DocText(decls[i].1)) == Ok(m.meta)
  {
    var ds := Definitions(decls);
    CollectNames(ds);
    CollectMeta(ds);
    assert Firsts(ds) == Firsts(decls);
  }

  // ---------------------------------------------------------------- instances

  /** The error `setattr` of one keyword argument raises in __init__, if any. */
  function KwargError(columns: seq<(string, Field)>, key: string, value: Value): Option<OrmError> {
    match Lookup(columns, key)
    case None => Some(AttributeError(key))
    case Some(f) => ValidateField(key, value, f)
  }

  /** The `_data` that __init__ builds from the keyword arguments in order, or the first error. */
  function InitData(columns: seq<(string, Field)>, kwargs: seq<(string, Value)>): Result<map<string, Value>, OrmError> {
    if |kwargs| == 0 then Ok(map[])
    else
      match InitData(columns, kwargs[..|kwargs| - 1])
      case Err(e) => Err(e)
      case Ok(d) =>
        var (k, v) := kwargs[|kwargs| - 1];
        match KwargError(columns, k, v)
        case Some(e) => Err(e)
        case None => Ok(d[k := v])
  }

  lemma {:induction false} InitErrorPersists(columns: seq<(string, Field)>, kwargs: seq<(string, Value)>, k: nat)
    requires k <= |kwargs| && InitData(columns, kwargs[..k]).Err?
    ensures InitData(columns, kwargs) == InitData(columns, kwargs[..k])
    decreases |kwargs| - k
  {
    if k < |kwargs| {
      assert kwargs[..k + 1][..k] == kwargs[..k];
      InitErrorPersists(columns, kwargs, k + 1);
    } else {
      assert kwargs[..k] == kwargs;
    }
  }

  /**
   * Construction succeeds exactly when every keyword is a declared column
   * whose value passes validate_field. Then `_data` holds exactly the
   * supplied keys, each with its value; unsupplied columns stay absent.
   */
  lemma {:induction false} InitDataMeaning(columns: seq<(string, Field)>, kwargs: seq<(string, Value)>)
    ensures InitData(columns, kwargs).Ok? <==>
      forall i :: 0 <= i < |kwargs| ==> KwargError(columns, kwargs[i].0, kwargs[i].1).None?
    ensures InitData(columns, kwargs).Ok? ==>
      var d := InitData(columns, kwargs).value;
      && (forall k :: k in d <==> k in Keys(kwargs))
      && (forall k :: k in d ==> k in Keys(columns) && Some(d[k]) == LastValue(kwargs, k))
  {
    if |kwargs| > 0 {
      var init := kwargs[..|kwargs| - 1];
      var (k, v) := kwargs[|kwargs| - 1];
      InitDataMeaning(columns, init);
      assert forall i :: 0 <= i < |init| ==> init[i] == kwargs[i];
      assert Keys(kwargs) == Keys(init) + [k];
      if InitData(columns, kwargs).Ok? {
        LookupPresent(columns, k);
      }
    }
  }

  /** The connection settings Model declares as class attributes. */
  function ClassString(item: string): Option<string> {
    if item == "db_name" then Some("my_sandbox_database")
    else if item == "host" then Some("localhost")
    else if item == "user" then Some("root")
    else if item == "password" then Some("123456")
    else None
  }

  /** The methods Model defines, and the `_meta` dict the metaclass sets on each model class. */
  const ModelMembers: set<string> := {
    "__init__", "validate_field", "__getattr__", "__setattr__", "execute_query", "create_database",
    "create_table", "create_all_tables", "create_many_to_many_table", "save", "all", "get",
    "__repr__", "__str__", "_meta"
  }

  /** What the ordinary class lookup finds for `item` on a model class, if anything. */
  function ClassAttr(item: string): (r: Option<Value>)
    ensures r.Some? <==> ClassString(item).Some? || item in ModelMembers
    ensures ClassString(item).Some? ==> r == Some(VStr(ClassString(item).value))
  {
    if ClassString(item).Some? then Some(VStr(ClassString(item).value))
    else if item in ModelMembers then Some(VObject(item))
    else None
  }

  /** An instance of a model class: `_data` plus the ordinary attributes set on it. */
  class Instance {
    const model: ModelClass
    var data: map<string, Value>
    var attrs: map<string, Value>

    /** Column values live only in `_data`; other names only among the ordinary attributes. */
    ghost predicate Valid()
      reads this
    {
      && (forall k :: k in data ==> k in Keys(model.meta.columns))
      && (forall k :: k in attrs ==> k !in Keys(model.meta.columns))
    }

    /** `self._data = {}` at the start of __init__. */
    constructor Empty(model: ModelClass)
      ensures this.model == model && data == map[] && attrs == map[]
    {
      this.model := model;
      data := map[];
      attrs := map[];
    }

    /**
     * `getattr(self, item)`: the instance's own attributes first, then the
     * attributes of the class, and only when both miss Model.__getattr__,
     * which reads `_data`.
     */
    function GetAttr(item: string): (r: Result<Value, OrmError>)
      reads this
      ensures item !in attrs && ClassAttr(item).None? ==>
        r == if item in data then Ok(data[item]) else Err(AttributeError(item))
    {
      if item in attrs then Ok(attrs[item])
      else if ClassAttr(item).Some? then Ok(ClassAttr(item).value)
      else if item in data then Ok(data[item])
      else Err(AttributeError(item))
    }

    /**
     * Reading a column that no class attribute shadows gives its `_data`
     * value, and raises AttributeError exactly when it is unset; a shadowed
     * column always reads the class attribute.
     */
    lemma ReadColumn(item: string)
      requires Valid() && item in Keys(model.meta.columns)
      ensures ClassAttr(item).None? ==> (GetAttr(item).Ok? <==> item in data)
      ensures ClassAttr(item).None? && GetAttr(item).Ok? ==> GetAttr(item).value == data[item]
      ensures GetAttr(item).Err? ==> GetAttr(item) == Err(AttributeError(item))
      ensures ClassAttr(item).Some? ==> GetAttr(item) == Ok(ClassAttr(item).value)
    {
    }

    /**
     * Model.__setattr__: a declared column goes straight into `_data`, with no
     * validation; any other name becomes an ordinary attribute.
     */
    method SetAttr(key: string, value: Value)
      requires Valid()
      modifies this
      ensures Valid()
      ensures key in Keys(model.meta.columns) ==> data == old(data)[key := value] && attrs == old(attrs)
      ensures key !in Keys(model.meta.columns) ==> attrs == old(attrs)[key := value] && data == old(data)
      ensures key !in Keys(model.meta.columns) || ClassAttr(key).None? ==> GetAttr(key) == Ok(value)
      ensures key in Keys(model.meta.columns) && ClassAttr(key).Some? ==> GetAttr(key) == Ok(ClassAttr(key).value)
      ensures forall other :: other != key ==> GetAttr(other) == old(GetAttr(other))
    {
      if key in Keys(model.meta.columns) {
        data := data[key := value];
      } else {
        attrs := attrs[key := value];
      }
    }
  }

  /**
   * Model.__init__(**kwargs): checks and stores the keyword arguments one by
   * one; an unknown keyword raises AttributeError, a bad value the error of
   * validate_field.
   */
  method Construct(model: ModelClass, kwargs: seq<(string, Value)>) returns (r: Result<Instance, OrmError>)
    ensures r.Ok? <==> InitData(model.meta.columns, kwargs).Ok?
    ensures r.Ok? ==>
      && fresh(r.value) && r.value.model == model && r.value.Valid()
      && r.value.data == InitData(model.meta.columns, kwargs).value && r.value.attrs == map[]
    ensures r.Err? ==> r.error == InitData(model.meta.columns, kwargs).error
  {
    var columns := model.meta.columns;
    var inst := new Instance.Empty(model);
    for i := 0 to |kwargs|
      invariant InitData(columns, kwargs[..i]) == Ok(inst.data)
      invariant inst.model == model && inst.attrs == map[] && fresh(inst)
      invariant forall k :: k in inst.data ==> k in Keys(columns)
    {
      assert kwargs[..i + 1][..i] == kwargs[..i];
      var (key, value) := kwargs[i];
      var field := Lookup(columns, key);
      if field.None? {
        InitErrorPersists(columns, kwargs, i + 1);
        return Err(AttributeError(key));
      }
      var err := ValidateField(key, value, field.value);
      if err.Some? {
        InitErrorPersists(columns, kwargs, i + 1);
        return Err(err.value);
      }
      LookupPresent(columns, key);
      inst.data := inst.data[key := value];
    }
    assert kwargs[..|kwargs|] == kwargs;
    return Ok(inst);
  }

  // ---------------------------------------------------------------- the store

  /** One statement sent through execute_query: SQL text and its parameters. */
  datatype Statement = Statement(sql: string, params: seq<Value>)

  /**
   * What execute_query hands back: rows with their column names; (None, None)
   * for a statement that yields no rows; or None after a store error.
   */
  datatype Reply = Rows(rows: seq<seq<Value>>, columnNames: seq<string>) | NoRows | Failed

  /** The database: it records every statement and answers from `store`. */
  class Executor {
    var issued: seq<Statement>
    const store: (seq<Statement>, Statement) -> Reply

    constructor (store: (seq<Statement>, Statement) -> Reply)
      ensures issued == [] && this.store == store
    {
      issued := [];
      this.store := store;
    }

    /** Model.execute_query: the answer may depend on everything issued before. */
    method Execute(st: Statement) returns (reply: Reply)
      modifies this
      ensures issued == old(issued) + [st]
      ensures reply == store(old(issued), st)
    {
      reply := store(issued, st);
      issued := issued + [st];
    }
  }

  // ---------------------------------------------------------------- CREATE TABLE

  /** `if field.foreign_key:` is false for None and for the empty string. */
  predicate HasForeignKey(f: Field) {
    f.foreignKey.Some? && f.foreignKey.value != ""
  }

  function ForeignKeyClause(name: string, target: string): string {
    "FOREIGN KEY (" + name + ") REFERENCES " + target + "(id)"
  }

  /** The clauses one column contributes: "name type", then its foreign key if it has one. */
  function ColumnClausesOf(name: string, f: Field): seq<string> {
    [name + " " + f.fieldType] + if HasForeignKey(f) then [ForeignKeyClause(name, f.foreignKey.value)] else []
  }

  function ColumnClauses(columns: seq<(string, Field)>): seq<string> {
    if |columns| == 0 then []
    else ColumnClauses(columns[..|columns| - 1]) + ColumnClausesOf(columns[|columns| - 1].0, columns[|columns| - 1].1)
  }

  /** The names of the primary-key columns, in declaration order. */
  function PrimaryKeys(columns: seq<(string, Field)>): seq<string> {
    if |columns| == 0 then []
    else
      PrimaryKeys(columns[..|columns| - 1])
      + if columns[|columns| - 1].1.primaryKey then [columns[|columns| - 1].0] else []
  }

  function TableClauses(columns: seq<(string, Field)>): seq<string> {
    var pks := PrimaryKeys(columns);
    ColumnClauses(columns) + if |pks| > 0 then ["PRIMARY KEY (" + Join(", ", pks) + ")"] else []
  }

  function TableDdl(model: ModelClass): string {
    "CREATE TABLE IF NOT EXISTS " + Lower(model.name) + " (" + Join(", ", TableClauses(model.meta.columns)) + ")"
  }

  /** The query text create_table assembles, clause by clause. */
  method CreateTableQuery(model: ModelClass) returns (query: string)
    ensures query == TableDdl(model)
  {
    var cols := model.meta.columns;
    var columns: seq<string> := [];
    var primaryKeys: seq<string> := [];
    for i := 0 to |cols|
      invariant columns == ColumnClauses(cols[..i])
      invariant primaryKeys == PrimaryKeys(cols[..i])
    {
      assert cols[..i + 1][..i] == cols[..i];
      var (name, field) := cols[i];
      assert ColumnClauses(cols[..i + 1]) == columns + ColumnClausesOf(name, field);
      columns := columns + [name + " " + field.fieldType];
      if field.primaryKey {
        primaryKeys := primaryKeys + [name];
      }
      if HasForeignKey(field) {
        columns := columns + [ForeignKeyClause(name, field.foreignKey.value)];
      }
    }
    assert cols[..|cols|] == cols;
    if |primaryKeys| > 0 {
      columns := columns + ["PRIMARY KEY (" + Join(", ", primaryKeys) + ")"];
    }
    assert columns == TableClauses(cols);
    query := "CREATE TABLE IF NOT EXISTS " + Lower(model.name) + " (" + Join(", ", columns) + ")";
  }

  /** Where the clauses of column i start. */
  function ClauseStart(columns: seq<(string, Field)>, i: nat): nat
    requires i <= |columns|
  {
    |ColumnClauses(columns[..i])|
  }

  /**
   * Every column appears as "name type" in declaration order, and a column
   * with a foreign key is followed immediately by its FOREIGN KEY clause.
   */
  lemma {:induction false} ColumnClausesLayout(columns: seq<(string, Field)>, i: nat)
    requires i < |columns|
    ensures var cs, p, (name, f) := ColumnClauses(columns), ClauseStart(columns, i), columns[i];
      && p < |cs| && cs[p] == name + " " + f.fieldType
      && (HasForeignKey(f) ==> p + 1 < |cs| && cs[p + 1] == ForeignKeyClause(name, f.foreignKey.value))
      && ClauseStart(columns, i + 1) == p + (if HasForeignKey(f) then 2 else 1)
    decreases |columns|
  {
    var init := columns[..|columns| - 1];
    if i < |columns| - 1 {
      ColumnClausesLayout(init, i);
      assert init[..i] == columns[..i];
      assert init[..i + 1] == columns[..i + 1];
    } else {
      assert init == columns[..i];
      assert columns[..i + 1] == columns;
    }
  }

  /** The PRIMARY KEY list holds exactly the primary-key columns. */
  lemma {:induction false} PrimaryKeysAre(columns: seq<(string, Field)>)
    ensures forall n :: n in PrimaryKeys(columns) <==>
      exists i :: 0 <= i < |columns| && columns[i].0 == n && columns[i].1.primaryKey
  {
    if |columns| > 0 {
      var init := columns[..|columns| - 1];
      PrimaryKeysAre(init);
      assert forall i :: 0 <= i < |init| ==> init[i] == columns[i];
    }
  }

  /**
   * After the column clauses comes one PRIMARY KEY clause listing the
   * primary-key columns, present exactly when some column is a primary key.
   */
  lemma PrimaryKeyClause(columns: seq<(string, Field)>)
    ensures TableClauses(columns) == ColumnClauses(columns)
      + if HasPrimaryKey(columns) then ["PRIMARY KEY (" + Join(", ", PrimaryKeys(columns)) + ")"] else []
  {
    PrimaryKeysAre(columns);
    var pks := PrimaryKeys(columns);
    if |pks| > 0 {
      assert pks[0] in pks;
    }
  }

  predicate HasPrimaryKey(columns: seq<(string, Field)>) {
    exists i :: 0 <= i < |columns| && columns[i].1.primaryKey
  }

  /** `{lower(cls)}_has_{related}`: only the owner's name is lower-cased. */
  function JunctionTable(owner: string, related: string): string {
    Lower(owner) + "_has_" + related
  }

  /** The text create_many_to_many_table sends, indentation included. */
  function JunctionDdl(owner: string, related: string): string {
    var o := Lower(owner);
    "\n        CREATE TABLE IF NOT EXISTS " + JunctionTable(owner, related) + " (\n"
    + "            id INTEGER PRIMARY KEY AUTO_INCREMENT,\n"
    + "            " + o + "_id INTEGER,\n"
    + "            " + related + "_id INTEGER,\n"
    + "            FOREIGN KEY (" + o + "_id) REFERENCES " + o + "(id),\n"
    + "            FOREIGN KEY (" + related + "_id) REFERENCES " + related + "(id)\n"
    + "        )\n        "
  }

  /** The junction DDL of every many-to-many pair of a model, in order. */
  function JunctionStatements(owner: string, pairs: seq<(string, string)>): (ss: seq<Statement>)
    ensures |ss| == |pairs|
    ensures forall i :: 0 <= i < |pairs| ==> ss[i] == Statement(JunctionDdl(owner, pairs[i].1), [])
  {
    seq(|pairs|, i requires 0 <= i < |pairs| => Statement(JunctionDdl(owner, pairs[i].1), []))
  }

  /** The junction table's name keeps the related name exactly as parsed, quotes and case included. */
  lemma JunctionKeepsRelatedName(owner: string, related: string)
    ensures var t := JunctionTable(owner, related);
      |t| == |owner| + 5 + |related| && t[|owner| + 5..] == related
      && forall i :: 0 <= i < |owner| ==> t[i] == LowerChar(owner[i])
  {
  }

  method CreateManyToManyTable(ex: Executor, owner: string, related: string)
    modifies ex
    ensures ex.issued == old(ex.issued) + [Statement(JunctionDdl(owner, related), [])]
  {
    var _ := ex.Execute(Statement(JunctionDdl(owner, related), []));
  }

  /** Model.create_table: the table's DDL, then one junction table per many-to-many pair. */
  method CreateTable(ex: Executor, model: ModelClass)
    modifies ex
    ensures ex.issued == old(ex.issued) + [Statement(TableDdl(model), [])]
      + JunctionStatements(model.name, model.meta.manyToMany)
  {
    var query := CreateTableQuery(model);
    var _ := ex.Execute(Statement(query, []));
    CreateJunctionTables(ex, model);
  }

  /** The loop over `_meta["many_to_many"]` shared by create_table and create_all_tables. */
  method CreateJunctionTables(ex: Executor, model: ModelClass)
    modifies ex
    ensures ex.issued == old(ex.issued) + JunctionStatements(model.name, model.meta.manyToMany)
  {
    var pairs := model.meta.manyToMany;
    for i := 0 to |pairs|
      invariant ex.issued == old(ex.issued) + JunctionStatements(model.name, pairs[..i])
    {
      assert JunctionStatements(model.name, pairs[..i + 1])
        == JunctionStatements(model.name, pairs[..i]) + [Statement(JunctionDdl(model.name, pairs[i].1), [])];
      CreateManyToManyTable(ex, model.name, pairs[i].1);
    }
    assert pairs[..|pairs|] == pairs;
  }

  /** What create_all_tables issues for one model: its create_table, then every junction DDL again. */
  function ModelStatements(model: ModelClass): seq<Statement> {
    var js := JunctionStatements(model.name, model.meta.manyToMany);
    [Statement(TableDdl(model), [])] + js + js
  }

  function AllTablesStatements(models: seq<ModelClass>): seq<Statement> {
    if |models| == 0 then []
    else AllTablesStatements(models[..|models| - 1]) + ModelStatements(models[|models| - 1])
  }

  /** Model.create_all_tables over the registered models, in definition order. */
  method CreateAllTables(ex: Executor, models: seq<ModelClass>)
    modifies ex
    ensures ex.issued == old(ex.issued) + AllTablesStatements(models)
  {
    for i := 0 to |models|
      invariant ex.issued == old(ex.issued) + AllTablesStatements(models[..i])
    {
      ghost var before := ex.issued;
      CreateTable(ex, models[i]);
      CreateJunctionTables(ex, models[i]);
      AllTablesStep(old(ex.issued), before, ex.issued, models, i);
    }
    assert models[..|models|] == models;
  }

  /** After model i's create_table and junction pass, models[..i + 1] have been issued. */
  lemma AllTablesStep(start: seq<Statement>, before: seq<Statement>, after: seq<Statement>, models: seq<ModelClass>, i: nat)
    requires i < |models| && before == start + AllTablesStatements(models[..i])
    requires var js := JunctionStatements(models[i].name, models[i].meta.manyToMany);
      after == before + [Statement(TableDdl(models[i]), [])] + js + js
    ensures after == start + AllTablesStatements(models[..i + 1])
  {
    AllTablesSnoc(models, i);
    ModelIssued(before, after, models[i]);
    SeqAssoc(start, AllTablesStatements(models[..i]), ModelStatements(models[i]));
  }

  /** One more model adds its statements to the end. */
  lemma AllTablesSnoc(models: seq<ModelClass>, i: nat)
    requires i < |models|
    ensures AllTablesStatements(models[..i + 1]) == AllTablesStatements(models[..i]) + ModelStatements(models[i])
  {
    assert models[..i + 1][..i] == models[..i];
  }

  /** create_table followed by the junction pass issues the model's statements. */
  lemma ModelIssued(before: seq<Statement>, after: seq<Statement>, model: ModelClass)
    requires var js := JunctionStatements(model.name, model.meta.manyToMany);
      after == before + [Statement(TableDdl(model), [])] + js + js
    ensures after == before + ModelStatements(model)
  {
  }

  lemma SeqAssoc<T>(a: seq<T>, b: seq<T>, c: seq<T>)
    ensures a + b + c == a + (b + c)
  {
  }

  /** Every junction DDL of a model is issued twice by create_all_tables. */
  lemma JunctionIssuedTwice(model: ModelClass, k: nat)
    requires k < |model.meta.manyToMany|
    ensures var st := Statement(JunctionDdl(model.name, model.meta.manyToMany[k].1), []);
      multiset(ModelStatements(model))[st] >= 2
  {
    var js := JunctionStatements(model.name, model.meta.manyToMany);
    var st := Statement(JunctionDdl(model.name, model.meta.manyToMany[k].1), []);
    assert js[k] == st;
    assert multiset(js)[st] >= 1;
    assert multiset(ModelStatements(model)) == multiset([Statement(TableDdl(model), [])]) + multiset(js) + multiset(js);
  }

  // ---------------------------------------------------------------- INSERT and SELECT

  /** `", ".join(["%s"] * n)` as a list. */
  function Placeholders(n: nat): (ps: seq<string>)
    ensures |ps| == n && forall i :: 0 <= i < n ==> ps[i] == "%s"
  {
    seq(n, i => "%s")
  }

  function InsertSql(table: string, columns: seq<string>): string {
    "INSERT INTO " + table + " (" + Join(", ", columns) + ") VALUES (" + Join(", ", Placeholders(|columns|)) + ")"
  }

  /** getattr(self, name) for each column name in order, or the first AttributeError. */
  function ReadAll(inst: Instance, names: seq<string>): Result<seq<Value>, OrmError>
    reads inst
  {
    if |names| == 0 then Ok([])
    else
      match ReadAll(inst, names[..|names| - 1])
      case Err(e) => Err(e)
      case Ok(vs) =>
        match inst.GetAttr(names[|names| - 1])
        case Err(e) => Err(e)
        case Ok(v) => Ok(vs + [v])
  }

  /** Reading every column succeeds exactly when each is set; the values come in column order. */
  lemma {:induction false} ReadAllMeaning(inst: Instance, names: seq<string>)
    ensures ReadAll(inst, names).Ok? <==> forall i :: 0 <= i < |names| ==> inst.GetAttr(names[i]).Ok?
    ensures ReadAll(inst, names).Ok? ==>
      |ReadAll(inst, names).value| == |names|
      && forall i :: 0 <= i < |names| ==> ReadAll(inst, names).value[i] == inst.GetAttr(names[i]).value
  {
    if |names| > 0 {
      var init := names[..|names| - 1];
      ReadAllMeaning(inst, init);
      assert forall i :: 0 <= i < |init| ==> init[i] == names[i];
    }
  }

  /**
   * What save reads: it fails exactly when some column that no class
   * attribute shadows is unset; a shadowed column (`user`, `host`, ...)
   * sends the class attribute whether or not the column was given.
   */
  lemma SaveReads(inst: Instance)
    requires inst.Valid()
    ensures var names := Keys(inst.model.meta.columns);
      ReadAll(inst, names).Ok? <==> forall i :: 0 <= i < |names| ==> ClassAttr(names[i]).Some? || names[i] in inst.data
    ensures var names := Keys(inst.model.meta.columns);
      ReadAll(inst, names).Ok? ==> |ReadAll(inst, names).value| == |names| && forall i :: 0 <= i < |names| ==>
        ReadAll(inst, names).value[i] == if ClassAttr(names[i]).Some? then ClassAttr(names[i]).value else inst.data[names[i]]
  {
    var names := Keys(inst.model.meta.columns);
    ReadAllMeaning(inst, names);
    forall i | 0 <= i < |names|
      ensures inst.GetAttr(names[i]).Ok? <==> ClassAttr(names[i]).Some? || names[i] in inst.data
      ensures inst.GetAttr(names[i]).Ok? ==>
        inst.GetAttr(names[i]).value == if ClassAttr(names[i]).Some? then ClassAttr(names[i]).value else inst.data[names[i]]
    {
      assert names[i] in Keys(inst.model.meta.columns);
      inst.ReadColumn(names[i]);
    }
  }

  /**
   * Model.save: reads every column (an unset one raises AttributeError and
   * nothing is sent), then sends a positional INSERT with one placeholder
   * per column and the values in column order.
   */
  method Save(ex: Executor, inst: Instance) returns (err: Option<OrmError>)
    modifies ex
    ensures var names := Keys(inst.model.meta.columns);
      match ReadAll(inst, names)
      case Err(e) => err == Some(e) && ex.issued == old(ex.issued)
      case Ok(vs) =>
        err == None && ex.issued == old(ex.issued) + [Statement(InsertSql(Lower(inst.model.name), names), vs)]
  {
    var names := Keys(inst.model.meta.columns);
    var columns: seq<string> := [];
    var values: seq<Value> := [];
    for i := 0 to |names|
      invariant columns == names[..i]
      invariant ReadAll(inst, names[..i]) == Ok(values)
    {
      assert names[..i + 1][..i] == names[..i];
      var v := inst.GetAttr(names[i]);
      if v.Err? {
        ReadErrorPersists(inst, names, i + 1);
        return Some(v.error);
      }
      columns := columns + [names[i]];
      values := values + [v.value];
    }
    assert names[..|names|] == names;
    var query := "INSERT INTO " + Lower(inst.model.name) + " (" + Join(", ", columns)
      + ") VALUES (" + Join(", ", Placeholders(|values|)) + ")";
    ReadAllMeaning(inst, names);
    var _ := ex.Execute(Statement(query, values));
    return None;
  }

  lemma {:induction false} ReadErrorPersists(inst: Instance, names: seq<string>, k: nat)
    requires k <= |names| && ReadAll(inst, names[..k]).Err?
    ensures ReadAll(inst, names) == ReadAll(inst, names[..k])
    decreases |names| - k
  {
    if k < |names| {
      assert names[..k + 1][..k] == names[..k];
      ReadErrorPersists(inst, names, k + 1);
    } else {
      assert names[..k] == names;
    }
  }

  /** `zip(column_names, row)`: pairs up to the shorter of the two. */
  function Zip(names: seq<string>, row: seq<Value>): (ps: seq<(string, Value)>)
    ensures |ps| == if |names| < |row| then |names| else |row|
    ensures forall i :: 0 <= i < |ps| ==> ps[i] == (names[i], row[i])
  {
    var n := if |names| < |row| then |names| else |row|;
    seq(n, i requires 0 <= i < n => (names[i], row[i]))
  }

  /** `cls(**dict(zip(column_names, row)))`'s keyword arguments. */
  function RowKwargs(names: seq<string>, row: seq<Value>): seq<(string, Value)> {
    AssignAll(Zip(names, row))
  }

  /** The `_data` of the instances rebuilt from the rows, in row order, or the first error. */
  function RowsData(model: ModelClass, names: seq<string>, rows: seq<seq<Value>>): (r: Result<seq<map<string, Value>>, OrmError>)
    ensures r.Ok? ==> |r.value| == |rows|
  {
    if |rows| == 0 then Ok([])
    else
      match RowsData(model, names, rows[..|rows| - 1])
      case Err(e) => Err(e)
      case Ok(ds) =>
        match InitData(model.meta.columns, RowKwargs(names, rows[|rows| - 1]))
        case Err(e) => Err(e)
        case Ok(d) => Ok(ds + [d])
  }

  lemma {:induction false} RowsErrorPersists(model: ModelClass, names: seq<string>, rows: seq<seq<Value>>, k: nat)
    requires k <= |rows| && RowsData(model, names, rows[..k]).Err?
    ensures RowsData(model, names, rows) == RowsData(model, names, rows[..k])
    decreases |rows| - k
  {
    if k < |rows| {
      assert rows[..k + 1][..k] == rows[..k];
      RowsErrorPersists(model, names, rows, k + 1);
    } else {
      assert rows[..k] == rows;
    }
  }

  /** A successful rebuild gives one `_data` per row, each the row's validated columns. */
  lemma {:induction false} RowsDataMeaning(model: ModelClass, names: seq<string>, rows: seq<seq<Value>>)
    requires RowsData(model, names, rows).Ok?
    ensures forall i :: 0 <= i < |rows| ==>
      InitData(model.meta.columns, RowKwargs(names, rows[i])) == Ok(RowsData(model, names, rows).value[i])
  {
    if |rows| > 0 {
      var init := rows[..|rows| - 1];
      RowsDataMeaning(model, names, init);
      assert forall i :: 0 <= i < |init| ==> init[i] == rows[i];
    }
  }

  function SelectAllSql(model: ModelClass): string {
    "SELECT * FROM " + Lower(model.name)
  }

  /**
   * Model.all: every row rebuilt (and re-validated) as an instance. No rows
   * gives []; a store error makes the unpacking of execute_query's None fail.
   */
  method All(ex: Executor, model: ModelClass) returns (r: Result<seq<Instance>, OrmError>)
    modifies ex
    ensures ex.issued == old(ex.issued) + [Statement(SelectAllSql(model), [])]
    ensures match ex.store(old(ex.issued), Statement(SelectAllSql(model), []))
      case Failed => r == Err(UnpackNone)
      case NoRows => r == Ok([])
      case Rows(rows, names) =>
        && (r.Ok? <==> RowsData(model, names, rows).Ok?)
        && (r.Err? ==> r.error == RowsData(model, names, rows).error)
        && (r.Ok? ==> |r.value| == |rows| && forall i :: 0 <= i < |rows| ==>
              fresh(r.value[i]) && r.value[i].model == model && r.value[i].data == RowsData(model, names, rows).value[i])
  {
    var reply := ex.Execute(Statement(SelectAllSql(model), []));
    match reply
    case Failed =>
      return Err(UnpackNone);
    case NoRows =>
      return Ok([]);
    case Rows(rows, names) =>
      var instances: seq<Instance> := [];
      ghost var ds: seq<map<string, Value>> := [];
      for i := 0 to |rows|
        invariant RowsData(model, names, rows[..i]) == Ok(ds)
        invariant ex.issued == old(ex.issued) + [Statement(SelectAllSql(model), [])]
        invariant |instances| == |ds| == i
        invariant forall j :: 0 <= j < i ==>
          fresh(instances[j]) && instances[j].model == model && instances[j].data == ds[j]
      {
        assert rows[..i + 1][..i] == rows[..i];
        var inst := Construct(model, RowKwargs(names, rows[i]));
        if inst.Err? {
          assert RowsData(model, names, rows[..i + 1]) == Err(inst.error);
          RowsErrorPersists(model, names, rows, i + 1);
          return Err(inst.error);
        }
        instances := instances + [inst.value];
        ds := ds + [inst.value.data];
      }
      assert rows[..|rows|] == rows;
      return Ok(instances);
  }

  /** `key=%s` for each keyword, in keyword order. */
  function Conditions(keys: seq<string>): (cs: seq<string>)
    ensures |cs| == |keys| && forall i :: 0 <= i < |keys| ==> cs[i] == keys[i] + "=%s"
  {
    seq(|keys|, i requires 0 <= i < |keys| => keys[i] + "=%s")
  }

  function ArgValues(kwargs: seq<(string, Value)>): (vs: seq<Value>)
    ensures |vs| == |kwargs| && forall i :: 0 <= i < |kwargs| ==> vs[i] == kwargs[i].1
  {
    seq(|kwargs|, i requires 0 <= i < |kwargs| => kwargs[i].1)
  }

  function SelectWhereSql(model: ModelClass, keys: seq<string>): string {
    "SELECT * FROM " + Lower(model.name) + " WHERE " + Join(" AND ", Conditions(keys))
  }

  /**
   * Model.get(**kwargs): one SELECT with a `k=%s` condition per keyword,
   * joined by AND in keyword order, the values passed as parameters. The
   * first row is rebuilt as an instance; no rows gives None.
   */
  method Get(ex: Executor, model: ModelClass, kwargs: seq<(string, Value)>) returns (r: Result<Option<Instance>, OrmError>)
    modifies ex
    ensures var st := Statement(SelectWhereSql(model, Keys(kwargs)), ArgValues(kwargs));
      && ex.issued == old(ex.issued) + [st]
      && match ex.store(old(ex.issued), st)
        case Failed => r == Err(UnpackNone)
        case NoRows => r == Ok(None)
        case Rows(rows, names) =>
          if |rows| == 0 then r == Ok(None)
          else
            var d := InitData(model.meta.columns, RowKwargs(names, rows[0]));
            && (r.Ok? <==> d.Ok?)
            && (r.Err? ==> r.error == d.error)
            && (r.Ok? ==>
                  && r.value.Some? && fresh(r.value.value) && r.value.value.model == model
                  && r.value.value.data == d.value)
  {
    var conditions: seq<string> := [];
    var values: seq<Value> := [];
    for i := 0 to |kwargs|
      invariant conditions == Conditions(Keys(kwargs[..i]))
      invariant values == ArgValues(kwargs[..i])
    {
      conditions := conditions + [kwargs[i].0 + "=%s"];
      values := values + [kwargs[i].1];
    }
    assert kwargs[..|kwargs|] == kwargs;
    var query := "SELECT * FROM " + Lower(model.name) + " WHERE " + Join(" AND ", conditions);
    var reply := ex.Execute(Statement(query, values));
    match reply
    case Failed =>
      return Err(UnpackNone);
    case NoRows =>
      return Ok(None);
    case Rows(rows, names) =>
      if |rows| == 0 {
        return Ok(None);
      }
      var inst := Construct(model, RowKwargs(names, rows[0]));
      if inst.Err? {
        return Err(inst.error);
      }
      return Ok(Some(inst.value));
  }
}
