# A verified model of the Research café-database toolkit

The repository is a small benchmarking kit built around a MySQL database of a
café: guests, baristas, a menu, personal orders, orders and the link table
between orders and personal orders. This project models its deterministic
core in Dafny and proves what the code promises.

- **ORM mapping layer** (`lib/orm_classes.py`):
  - `ModelMeta.parse_docstring` turns each model's docstring into an ordered
    column map and a list of many-to-many pairs. The line grammar
    `(\w+):\s*(\w+)(?:\((.*?)\))?`, `re.search(key + "(\d+)")` and
    `split("=")[-1]` are written out over characters.
  - The field descriptors and `validate_field`.
  - Instances, whose `_data` map is filled by `__init__` and routed through
    `__getattr__` and `__setattr__`.
  - The statement builders `create_table`, `create_many_to_many_table`,
    `create_all_tables`, `save`, `all` and `get`. They run against an
    executor object that records every statement issued and answers from an
    arbitrary store function.
  - The six concrete models. Their docstrings are written out character for
    character, and the model proves what `_meta` each one gets.
- **Sandbox table ordering** (`lib/db_sandbox_creator.py`):
  - dependency detection by substring search over CREATE statements;
  - the recursive depth-first resolution, with its shared `resolved` and
    `unresolved` lists, modelled as a class.
- **Synthetic data** (`lib/data_generator.py`):
  - the counts `DataGenerator.__init__` derives;
  - the shape and range of every generated record, for every possible
    sequence of random draws.
- **Plain records** (`lib/helper_classes.py`): the constructor type checks
  and `to_turple` column orders.
- **Benchmark query builder** (`main.py` and `investigations/investigations.py`):
  - the SELECT / INSERT VALUES / INSERT…SELECT / DELETE text;
  - the label taken from each query;
  - the layout in which the timings are stored and read back;
  - the `models_str` file tag;
  - the arguments of `generate_all`'s calls and the rows they yield.

Several behaviours of the code differ from what its declarations suggest. The
model keeps the code's behaviour in each case:

- The docstring parser drops every `min_value`/`max_value` and FloatField's
  primary-key flag.
- Foreign-key and many-to-many targets keep their quotes.
- Junction-table names do not lower-case the related name.
- `create_all_tables` issues every junction DDL twice.
- `DataGenerator.__init__` stores a passed `OrderCount` in `OrdersCount` and
  leaves `OrderCount` unset.
- `Data_Generator` calls `Orders_has_OrderGenerator` with no existing orders.
  It therefore fails whenever it has links to draw.
- `Orders_has_Order.to_turple` swaps its last two fields.
- `DatesGenerator` is documented as writing `MM-DD-YYYY` but writes an
  unpadded `M-D-2024`, with days 1 to 30 only.
- A model column named like a class attribute of `Model` (`user`, `host`,
  `password`, `db_name`, a method name) is shadowed. Reading it, and hence
  `save`, gives the class attribute instead of the column value.
- The benchmark reads its timings back with a stride that matches how they
  were written only for one query type or one row count.

Modules:

- `Wrappers`, `Text`, `Values` and `OrderedMaps` model Python's `Option`/`Result`
  results, string operations, dynamic values and insertion-ordered dicts.
- `OrmFields`, `OrmParser`, `OrmModel` and `OrmSchemas` model `lib/orm_classes.py`.
- `Sandbox` models `lib/db_sandbox_creator.py`.
- `Records` models `lib/helper_classes.py`.
- `Generator` models `lib/data_generator.py`.
- `GeneratedData` relates the generated values to the ORM schemas.
- `QueryBuilder` and `GraphNames` model `main.py`.
- `Investigations` models the differences in `investigations/investigations.py`.

## Model

| member | source | states |
|---|---|---|
| OrmFields.VarcharTypeCarriesLength | lib/orm_classes.py:123-125 | a CharField's SQL type is `VARCHAR(` + str(max_length) + `)`, and its primary-key flag is the one given |
| OrmFields.NumericBoundsInclusive | lib/orm_classes.py:385-402 | an Integer/Float field accepts a number exactly when it is at least the min_value and at most the max_value that are set; a refusal is a ValueError naming the field |
| OrmFields.UnboundedNumericAcceptsAll | lib/orm_classes.py:398-402 | a numeric field whose bounds are both None accepts every value |
| OrmFields.CharAcceptsExactly | lib/orm_classes.py:390-396 | a string fits a CharField iff its whitespace word count equals words_count (when set) and its length is at most max_length |
| OrmFields.CharRefusesNonStrings | lib/orm_classes.py:390-396 | a CharField refuses every value that is not a string |
| OrmFields.ForeignKeyAcceptsAll | lib/orm_classes.py:385-402 | a ForeignKey column accepts every value |
| OrmParser.ParamsGroupOf | lib/orm_classes.py:294 | the lazy group `\((.*?)\)` captures the text up to the first ')' |
| OrmParser.MatchesDeclaration | lib/orm_classes.py:294 | `name:  Kind(params)…` matches with groups name, Kind and params |
| OrmParser.MatchedLineShape | lib/orm_classes.py:294 | a matched line starts with `name:`, and both name and kind are `\w+` words |
| OrmParser.SearchNumberReadsWritten | lib/orm_classes.py:300-301 | `key` followed by str(n) at the front of the parameters is read back as n |
| OrmParser.SearchNumberSkips | lib/orm_classes.py:300 | a prefix that cannot start `key` does not change what the search finds |
| OrmParser.DeclarationLineEffect | lib/orm_classes.py:293-296 | a declaration line, whatever whitespace surrounds it, has the effect of its own name, kind and params |
| OrmParser.StripDeclaration | lib/orm_classes.py:294 | `line.strip()` leaves exactly the declaration |
| OrmParser.MatchDeclaration | lib/orm_classes.py:294 | a declaration matches with its own three groups |
| OrmParser.LineEffectOfMatch | lib/orm_classes.py:294-296 | a line's effect is decided by its match groups |
| OrmParser.BlankLineEffect | lib/orm_classes.py:294-295 | a blank line declares nothing |
| OrmParser.PrimaryKeyDeclaration | lib/orm_classes.py:297-298 | `IntegerField(primary_key=True)` gives a primary-key INTEGER column without bounds |
| OrmParser.IntegerDeclarationDropsBounds | lib/orm_classes.py:297-298 | an IntegerField is a primary key exactly when its parameters contain `primary_key=True`; either way min/max bounds are dropped |
| OrmParser.FloatDeclarationDropsAll | lib/orm_classes.py:307-308 | a FloatField keeps none of its parameters |
| OrmParser.CharDeclaration | lib/orm_classes.py:299-306 | `CharField(max_length=n)` gives VARCHAR(n) without words_count |
| OrmParser.CharWordsDeclaration | lib/orm_classes.py:299-306 | `CharField(max_length=n, words_count=w)` gives VARCHAR(n) requiring w words |
| OrmParser.WordsCountDeclaration | lib/orm_classes.py:303-306 | parameters mentioning words_count with a number give that words_count constraint |
| OrmParser.ForeignKeyDeclaration | lib/orm_classes.py:309-311 | `ForeignKey(to=T)` references T, the raw text after the last '=' |
| Text.AfterLastIsLastSegment | lib/orm_classes.py:310 | `params.split("=")[-1]` is the longest suffix holding no '=', preceded by '=' unless it is the whole text |
| OrmParser.ManyToManyDeclaration | lib/orm_classes.py:312-313 | `ManyToManyField(k=T)` adds the pair (name, T) and no column |
| OrmParser.Effects | lib/orm_classes.py:293 | one effect per line of `strip().split("\n")`, in order |
| OrmParser.ParseDocstring | lib/orm_classes.py:291-314 | the loop that fills `columns` and `many_to_many` yields the parse of the docstring's lines |
| OrmParser.ParseEffectsSnoc | lib/orm_classes.py:293-313 | one more succeeding line applies its effect to the schema parsed so far |
| OrmParser.ParseStep | lib/orm_classes.py:293-313 | each line either applies its effect or raises its error |
| OrmParser.ErrorPersists | lib/orm_classes.py:293-313 | once a line raises, the parse fails with that error |
| OrmParser.ParseSucceedsIff | lib/orm_classes.py:293-314 | parsing succeeds iff no line raises |
| OrmParser.ParseFailsAtFirstError | lib/orm_classes.py:293-314 | a failed parse reports the error of the first line that raises |
| OrmParser.ParseResult | lib/orm_classes.py:291-314 | the columns are `dict` of the column declarations in line order, and many_to_many lists the relation lines in order |
| OrmParser.ParsedColumns | lib/orm_classes.py:291-314 | column names appear once each, in first-occurrence order, each holding its last declaration |
| OrmSchemas.InterleavedParse | lib/orm_classes.py:293-314 | column lines with distinct names separated by blank lines parse to exactly those columns |
| OrmSchemas.ConsecutiveParse | lib/orm_classes.py:293-314 | the same for column lines that follow one another |
| OrmSchemas.EscapedDoc3Parse | lib/orm_classes.py:741-745 | a three-declaration docstring in the models' escaped layout parses to the columns of its lines |
| OrmSchemas.PlainDoc3Parse | lib/orm_classes.py:807-811 | the same for the layout without escapes |
| OrmSchemas.MenuSchema | lib/orm_classes.py:740-745 | Menu's `_meta`: id, name VARCHAR(100), prices FLOAT without bounds |
| OrmSchemas.BaristaSchema | lib/orm_classes.py:753-758 | Barista's `_meta`: a three-word name of at most 255 and work_time without its 0..160 bounds |
| OrmSchemas.GuestSchema | lib/orm_classes.py:766-771 | Guest's `_meta`: a three-word name of at most 255 and contact_number of at most 16 |
| OrmSchemas.PersonalOrderSchema | lib/orm_classes.py:779-784 | Personal_Order's `_meta`: count without its 1..5 bounds, menu_id referencing Menu |
| OrmSchemas.OrdersSchema | lib/orm_classes.py:792-798 | Orders' `_meta`: order_date of at most 10, guest_id and barista_id foreign keys |
| OrmSchemas.JunctionSchema | lib/orm_classes.py:806-811 | Orders_has_personal_order's `_meta`: personal_order_id references Personal_order, orders_id references Orders |
| OrmModel.Definitions | lib/orm_classes.py:260-265 | every declared class gets the parse of its docstring, "" when it has none |
| OrmModel.CollectNames | lib/orm_classes.py:260-261 | the registry holds one class per definition other than "Model", in definition order |
| OrmModel.CollectMeta | lib/orm_classes.py:263-265 | each registered class carries the schema parsed for its definition |
| OrmModel.RegistryMeaning | lib/orm_classes.py:247-267 | the registry built from (name, docstring) declarations has those names and their parsed `_meta` |
| OrmModel.InitErrorPersists | lib/orm_classes.py:350-356 | the first keyword that raises decides `__init__`'s error |
| OrmModel.InitDataMeaning | lib/orm_classes.py:349-356 | `__init__` succeeds iff every keyword is a column and validates; `_data` then holds exactly the supplied keys with their values |
| OrmModel.Instance.Empty | lib/orm_classes.py:349 | a fresh instance has empty `_data` and no attributes |
| OrmModel.Instance.ReadColumn | lib/orm_classes.py:330-333 | a column that a class attribute (`user`, `host`, a method name, ...) shadows always reads the class attribute; any other column gives its `_data` value and raises AttributeError exactly when it is unset, as `__getattr__` at lib/orm_classes.py:423-425 does |
| OrmModel.Instance.SetAttr | lib/orm_classes.py:439-442 | writing a column updates `_data` without validation; other names become ordinary attributes; a shadowed column still reads its class attribute afterwards; nothing else changes |
| OrmModel.Construct | lib/orm_classes.py:335-356 | construction succeeds iff the keywords validate, and the instance's `_data` is what `__init__` builds; otherwise its first error |
| OrmModel.Executor.Execute | lib/orm_classes.py:445-489 | each statement is recorded, and the answer may depend on every statement before it |
| OrmModel.CreateTableQuery | lib/orm_classes.py:547-559 | the loop that collects clauses yields the CREATE TABLE text of the model's columns |
| OrmModel.ColumnClausesLayout | lib/orm_classes.py:549-554 | column i contributes "name type" and, when it has a foreign key, `FOREIGN KEY (name) REFERENCES target(id)` right after it |
| OrmModel.PrimaryKeysAre | lib/orm_classes.py:551-552 | the PRIMARY KEY list holds exactly the primary-key columns, in declaration order |
| OrmModel.PrimaryKeyClause | lib/orm_classes.py:555-556 | a PRIMARY KEY clause is added iff some column is a primary key |
| OrmModel.JunctionStatements | lib/orm_classes.py:563-564 | one junction DDL per many-to-many pair, in order |
| OrmModel.JunctionKeepsRelatedName | lib/orm_classes.py:621 | the junction table is `lower(owner)_has_related`, the related name not lower-cased |
| OrmModel.CreateManyToManyTable | lib/orm_classes.py:621-632 | issues exactly the junction DDL |
| OrmModel.CreateTable | lib/orm_classes.py:525-564 | issues the table's DDL, then its junction tables |
| OrmModel.CreateJunctionTables | lib/orm_classes.py:563-564 | issues one junction DDL per pair, in order |
| OrmModel.CreateAllTables | lib/orm_classes.py:589-593 | issues, per model in definition order, create_table and then every junction DDL again |
| OrmModel.JunctionIssuedTwice | lib/orm_classes.py:563-564 | every junction DDL of a model occurs twice in what create_all_tables issues |
| OrmModel.Placeholders | lib/orm_classes.py:660 | n placeholders `%s` |
| OrmModel.ReadAllMeaning | lib/orm_classes.py:656-658 | reading every column succeeds iff each is set, with the values in column order |
| OrmModel.ReadErrorPersists | lib/orm_classes.py:656-658 | the first unset column decides the error |
| OrmModel.Save | lib/orm_classes.py:654-663 | when every column reads, issues one INSERT with the columns and n placeholders and the values in column order; otherwise raises the first AttributeError and issues nothing |
| OrmModel.SaveReads | lib/orm_classes.py:654-658 | save fails exactly when some unshadowed column is unset; a column named like a class attribute sends that attribute (`"root"` for `user`) whatever was given |
| OrmModel.Zip | lib/orm_classes.py:692 | `zip` pairs up to the shorter list |
| OrmModel.RowsData | lib/orm_classes.py:692 | one rebuilt instance per row |
| OrmModel.RowsErrorPersists | lib/orm_classes.py:692 | the first row that fails validation decides the error |
| OrmModel.RowsDataMeaning | lib/orm_classes.py:692 | each rebuilt `_data` is what `__init__` builds from that row's zipped columns |
| OrmModel.All | lib/orm_classes.py:689-693 | issues `SELECT * FROM lower(cls)`; no rows gives []; rows give one re-validated instance each; a store error fails the unpacking |
| OrmModel.Conditions | lib/orm_classes.py:727-728 | one `key=%s` per keyword, in keyword order |
| OrmModel.ArgValues | lib/orm_classes.py:727-729 | the values in keyword order |
| OrmModel.Get | lib/orm_classes.py:725-736 | issues the SELECT … WHERE with the values in keyword order; returns the first row rebuilt and re-validated, or None when no rows come back |
| Sandbox.Referenced | lib/db_sandbox_creator.py:141-143 | o is listed iff it is another table whose name occurs in the CREATE statement |
| Sandbox.TableDependencies | lib/db_sandbox_creator.py:135-145 | every table is a key, in order, with the tables its statement references |
| Sandbox.DependsExactly | lib/db_sandbox_creator.py:135-145 | t depends on o iff o ≠ t is a table named in t's CREATE statement |
| Sandbox.LookupAt | lib/db_sandbox_creator.py:237 | `dependencies[table]` finds the table's own list |
| Sandbox.ErrorsAreReal | lib/db_sandbox_creator.py:237-240 | a reported cycle is a real cycle; a failed lookup means a dependency is not a table |
| Sandbox.Remove | lib/db_sandbox_creator.py:243 | `list.remove` drops one occurrence |
| Sandbox.RemoveLast | lib/db_sandbox_creator.py:243 | removing the table just finished from the stack leaves the rest of the stack |
| Sandbox.ChainSuffixIsPath | lib/db_sandbox_creator.py:236-241 | the part of `unresolved` from any table on it is a dependency path to the top |
| Sandbox.PushKeepsConsistent | lib/db_sandbox_creator.py:236 | pushing a dependency of the top of `unresolved` keeps the state consistent |
| Sandbox.FinishKeepsConsistent | lib/db_sandbox_creator.py:242-243 | moving a table whose dependencies are resolved into `resolved` keeps the state consistent |
| Sandbox.Resolver.constructor | lib/db_sandbox_creator.py:218-219 | both lists start empty |
| Sandbox.Resolver.Resolve | lib/db_sandbox_creator.py:221-243 | on success the table is resolved, the stack is as before and `resolved` only grew; an error is a real cycle or missing table |
| Sandbox.Resolver.ResolveDeps | lib/db_sandbox_creator.py:237-241 | every dependency of the table on top of the stack is resolved, the table itself not yet; a cycle edge or a missing table is reported as a real one |
| Sandbox.ResolveDependencies | lib/db_sandbox_creator.py:190-248 | every key appears exactly once, after all its dependencies; an error is a real cycle or missing table; without cycles and with all dependencies keys it succeeds |
| Records.NewGuest | lib/helper_classes.py:30-39 | succeeds iff (int, str, str); the fields are the arguments; else TypeError at the first bad argument |
| Records.GuestRoundTrip | lib/helper_classes.py:41-48 | to_turple gives back the constructor arguments |
| Records.NewBarista | lib/helper_classes.py:77-86 | succeeds iff (int, str, int); the fields are the arguments; else TypeError at the first bad argument |
| Records.BaristaRoundTrip | lib/helper_classes.py:88-95 | to_turple gives back the constructor arguments |
| Records.NewOrders | lib/helper_classes.py:123-141 | succeeds iff (int, str, int, int); the fields are the arguments; else TypeError at the first bad argument |
| Records.OrdersRoundTrip | lib/helper_classes.py:143-150 | to_turple gives back the constructor arguments |
| Records.OrdersAcceptAnyDate | lib/helper_classes.py:133-141 | any date string is accepted: the format check is commented out |
| Records.NewOrdersHasOrder | lib/helper_classes.py:178-187 | succeeds iff three ints; the fields are the arguments; else TypeError at the first bad argument |
| Records.OrdersHasOrderSwaps | lib/helper_classes.py:189-196 | to_turple gives (ID, OrdersID, OrderID), the last two swapped against the constructor |
| Records.OrdersHasOrderRebuild | lib/helper_classes.py:178-196 | constructing again from a to_turple gives the same record iff OrderID equals OrdersID |
| Records.NewOrder | lib/helper_classes.py:224-233 | succeeds iff three ints; the fields are the arguments; else TypeError at the first bad argument |
| Records.OrderRoundTrip | lib/helper_classes.py:235-242 | to_turple gives back the constructor arguments |
| Records.NewMenu | lib/helper_classes.py:270-278 | succeeds iff the id is an int and the name a str, whatever the price; else TypeError at the first bad argument |
| Records.MenuRoundTrip | lib/helper_classes.py:280-287 | to_turple gives back the constructor arguments |
| Generator.CeilDiv | lib/data_generator.py:40 | `math.ceil(a / b)`: the least r with a <= r*b |
| Generator.DefaultOrderCount | lib/data_generator.py:48 | G + ceil(G / 7.5) |
| Generator.Init | lib/data_generator.py:25-52 | TypeError iff a count has the wrong type; defaults ceil(G/100), 25 and G; OrderCount defaults to G + ceil(G/7.5) and is unset when passed |
| Generator.DataGenerator.constructor | lib/data_generator.py:25-52 | the generator holds the counts Init derives |
| Generator.NewDataGenerator | lib/data_generator.py:25-52 | construction fails exactly with Init's TypeError, else holds Init's counts |
| Generator.InitDefaults | lib/data_generator.py:37-52 | 200 guests give 2 baristas, 25 menu items, 227 personal orders and 200 orders |
| Generator.InitCustom | lib/data_generator.py:37-52 | 150 guests give 170 personal orders; passed counts are kept |
| Generator.OrderCountIgnored | lib/data_generator.py:45-46 | a passed OrderCount has no effect and leaves OrderCount unset |
| Generator.RandRange | lib/data_generator.py:160 | a `randrange` draw lies in its range |
| Generator.RandRangeReaches | lib/data_generator.py:160 | every value of the range can be drawn |
| Generator.RandomWord | lib/data_generator.py:141 | a word of lo..hi-1 lower-case letters |
| Generator.Choice | lib/data_generator.py:218 | `random.choice` picks an element of the list |
| Generator.Choices | lib/data_generator.py:436 | `random.choices` of k gives max(k,0) elements of the pool, and fails on an empty pool when k > 0 |
| Generator.IDGenerator | lib/data_generator.py:107-123 | the ids 1..count in order |
| Generator.MenuName | lib/data_generator.py:141 | 4 to 9 lower-case letters |
| Generator.Price | lib/data_generator.py:160 | a price in {159 + 20k : 0 <= k <= 17} |
| Generator.PriceReaches | lib/data_generator.py:160 | every such price can be drawn |
| Generator.MenuGenerator | lib/data_generator.py:84-105 | count records (MenuCount by default) with ids 1..count, names of 4–9 lower-case letters and prices in range |
| Generator.ItemCount | lib/data_generator.py:200 | a count in 1..3 |
| Generator.OrderGenerator | lib/data_generator.py:162-183 | count records with ids 1..count, counts 1..3 and menu ids in 1..MenuCount; AttributeError when OrderCount is unset |
| Generator.OrderRecords | lib/data_generator.py:183 | record i has the i-th id, a count in 1..3 and the i-th menu id |
| Generator.Capitalize | lib/data_generator.py:264-266 | only the first letter is upper-cased |
| Generator.CapitalizedWord | lib/data_generator.py:257-266 | a capitalised drawn word is one upper-case letter followed by lower-case letters |
| Generator.FullNameShape | lib/data_generator.py:257-267 | "Surname Name Midname": exactly three words, capitalised, of 6–12, 4–8 and 7–14 letters, 19 to 36 characters |
| Generator.Draws | lib/data_generator.py:257-262 | one drawn word per record |
| Generator.CapitalizedUpTo | lib/data_generator.py:263-266 | the first i words capitalised, the others as drawn |
| Generator.CapitalizeStep | lib/data_generator.py:264-266 | capitalising word i in place moves the boundary by one |
| Generator.CapitalizeLists | lib/data_generator.py:263-266 | the loop leaves every word of the three lists capitalised |
| Generator.FullNames | lib/data_generator.py:242-267 | count full names, record i from its own draws |
| Generator.WorkTime | lib/data_generator.py:285 | a work time in {80 + 8k : 0 <= k <= 24} |
| Generator.BaristaGenerator | lib/data_generator.py:220-240 | count records with ids 1..count, full names and work times in range |
| Generator.AreaCode | lib/data_generator.py:326 | three digits in 900..996 |
| Generator.DigitText | lib/data_generator.py:326-328 | one digit 0..8 |
| Generator.PhoneShape | lib/data_generator.py:326-329 | `+7(ddd)ddd-dd-dd`, 16 characters |
| Generator.GuestGenerator | lib/data_generator.py:287-308 | count records with ids 1..count, full names and phone numbers |
| Generator.DateShape | lib/data_generator.py:407 | `M-D-2024` with a month 1..12 and a day 1..30 without leading zeros, hence 8 to 10 characters ending in "-2024" |
| Generator.OrdersGenerator | lib/data_generator.py:331-353 | count records with ids 1..count, dates, barista ids in 1..BaristaCount and guest ids in 1..GuestCount |
| Generator.OrdersHasOrderGenerator | lib/data_generator.py:409-440 | record i has ID = OrderID = i+1 and an OrdersID drawn from the existing ids; AttributeError when OrderCount is unset; IndexError with no existing ids |
| Generator.OrderIDGenerator | lib/data_generator.py:443-464 | a shuffle of 1..count: every id once |
| Generator.OrdersIDGenerator | lib/data_generator.py:466-483 | the ids 1..OrdersCount followed by OrderCount − OrdersCount drawn from them |
| Generator.DataGeneratorAll | lib/data_generator.py:54-82 | succeeds exactly when the Order, Orders and Orders_has_Order generators do, which needs OrderCount set to at most 0 and leaves the link list empty; menu, orders and order records are those generators' results; baristas and guests are numbered from 1 with their full names, work times and phones |
| Generator.DefaultOrderCountPositive | lib/data_generator.py:48 | the default OrderCount exceeds the guest count, so Data_Generator fails with it |
| GeneratedData.FullNameFitsSchemas | lib/data_generator.py:257-267 | every generated full name passes Guest's and Barista's name validation |
| GeneratedData.PhoneFitsSchema | lib/data_generator.py:326-329 | every generated phone number passes Guest's contact_number validation |
| GeneratedData.DateFitsSchema | lib/data_generator.py:407 | every generated date passes Orders' order_date validation |
| GeneratedData.MenuNameFitsSchema | lib/data_generator.py:141 | every generated menu name passes Menu's name validation |
| GeneratedData.WorkTimeAboveDeclaredMaximum | lib/data_generator.py:285 | a drawable work time 168 exceeds the declared 160, and the parsed schema still accepts it |
| QueryBuilder.EscapeChar | main.py:473 | each character's repr escape is non-empty |
| QueryBuilder.EscapePlain | main.py:473 | plain text is its own escape |
| QueryBuilder.ReprPlain | main.py:473 | the repr of plain text is the text in single quotes |
| QueryBuilder.EscapedQuotes | main.py:473 | every quote character inside a repr is escaped |
| QueryBuilder.LabelStripsLimit | main.py:509 | cutting 7 + len(str(n)) characters removes exactly the " LIMIT n" suffix |
| QueryBuilder.JoinText | main.py:453-455 | the joins are built iff the list has an even length; an odd one raises IndexError |
| QueryBuilder.JoinClauses | main.py:454-455 | one JOIN per (table, condition) pair |
| QueryBuilder.JoinTextIsPairs | main.py:453-455 | the join text is the JOIN clauses of consecutive pairs in order |
| QueryBuilder.Clause | main.py:456-463 | a clause is present iff its list is non-empty, and raises IndexError iff it is too short |
| QueryBuilder.Tuples | main.py:472-473 | min(n, rows) tuples, the j-th starting with id max_id+1+j |
| QueryBuilder.JoinsOf | main.py:453-455 | a join error is an IndexError |
| QueryBuilder.AppendJoins | main.py:453-455 | the loop appends exactly the join text, or raises IndexError |
| QueryBuilder.AppendClause | main.py:456-463 | appends exactly the clause |
| QueryBuilder.BuildSelect | main.py:448-464 | builds the SELECT text of the specification |
| QueryBuilder.AppendClauses | main.py:456-463 | appends WHERE, GROUP BY, HAVING and ORDER BY in that order |
| QueryBuilder.BuildInsert | main.py:465-488 | builds the INSERT text, or raises ValueError with neither values nor insert_select |
| QueryBuilder.BuildDelete | main.py:489-494 | builds the DELETE text |
| QueryBuilder.BuildQuery | main.py:448-496 | dispatches on the query type as the code's tests do |
| QueryBuilder.QueryEndsWithLimit | main.py:464 | every built query ends with " LIMIT n", and its label plus that suffix is the query |
| QueryBuilder.SelectStartsWithHead | main.py:448-452 | "SELECT" gives `SELECT * FROM t`; any other type containing SELECT is used verbatim |
| QueryBuilder.UnknownQueryTypeIff | main.py:495-496 | ValueError exactly when the type contains neither SELECT nor INSERT and is not DELETE |
| QueryBuilder.MissingInsertValuesIff | main.py:487-488 | an INSERT raises ValueError exactly when it has neither values nor insert_select |
| QueryBuilder.SelectTestComesFirst | main.py:448 | a type containing SELECT is built as a SELECT even if it contains INSERT |
| QueryBuilder.QueryUsesTable | main.py:450-490 | a built query read the table name at its index |
| QueryBuilder.InsertValuesShape | main.py:466-475 | the INSERT … VALUES text with columns from the first row's keys and min(n, rows) tuples |
| QueryBuilder.InsertSelectShape | main.py:476-486 | without rows, the INSERT … SELECT text: `id` first among the targets, `max_id + ROW_NUMBER() OVER ()` first among the sources, WHERE only for a given non-empty condition, then the LIMIT |
| QueryBuilder.DefaultRowCountsLinspace | main.py:440-442 | the default row counts are int(linspace(10, 1500, 9)) |
| QueryBuilder.FlattenIndex | main.py:508 | appending row after row puts row k's i-th time at k·Q + i |
| QueryBuilder.FlattenLength | main.py:508 | rows of Q times give rows·Q times |
| QueryBuilder.TimeRow | main.py:506-508 | the timings of one row count, one per query |
| QueryBuilder.TimeRows | main.py:446-508 | one timing row per row count |
| QueryBuilder.LabelsUpTo | main.py:509 | the labels of the first m queries of a row |
| QueryBuilder.NameRow | main.py:509 | one label per query |
| QueryBuilder.LabelsStep | main.py:509 | each built query appends its label |
| QueryBuilder.NameRows | main.py:446-509 | one label row per row count |
| QueryBuilder.AllBuildRows | main.py:446-447 | the run succeeds iff every row's queries build |
| QueryBuilder.RunRow | main.py:447-509 | one row appends its timings and labels, or raises the first query's error |
| QueryBuilder.RunQueries | main.py:444-509 | the loops store the timings and labels row-count-major, or raise a query's error |
| QueryBuilder.NextRow | main.py:446-509 | the stored lists grow by one row per row count |
| QueryBuilder.ReadInRange | main.py:523 | the read index j + len(x)·i stays inside the stored timings |
| QueryBuilder.PlotSeries | main.py:518-524 | one series per query reading times[j + len(x)·i], labelled names[i]; IndexError with too few labels |
| QueryBuilder.LayoutsAgree | main.py:508-523 | reading and writing positions agree for all points iff there is one row count or one query |
| QueryBuilder.SeriesShowOwnTimes | main.py:508-523 | with one row count or one query, each series shows its own timings |
| QueryBuilder.SeriesMixUpTimes | main.py:508-523 | otherwise the first series shows the second query's timing |
| QueryBuilder.LabelsOfFirstRowCount | main.py:509-524 | the series labels are the stripped queries of the first row count |
| QueryBuilder.QueryGraph | main.py:423-524 | succeeds iff every query builds; each series reads its stride of the timings and carries the first row count's label |
| GraphNames.Abbrevs | main.py:415-416 | one short form per model, failing at the first name that raises |
| GraphNames.AbbrevDefined | main.py:415-416 | a short form exists iff no '_'-separated part of the name is empty |
| GraphNames.AbbrevShape | main.py:415-416 | one character per part and no '_' |
| GraphNames.ModelsStrSplits | main.py:415-416 | splitting the tag at '_' gives back the short forms in order |
| GraphNames.ModelsStrFields | investigations/investigations.py:416-417 | the tag has one field per model |
| Investigations.QueryGraph | investigations/investigations.py:424-525 | the same runs as main.py; succeeds iff every query builds and there are at least as many tables as queries; each series reads its stride of the timings and is labelled table[i] |
| Investigations.TableLabelsAfterRun | investigations/investigations.py:449-497 | after a run with queries, the table list covers every query |
| Investigations.GenerateAll | investigations/investigations.py:271-299 | no plan iff no guest count and same length; MenuCount, BaristaCount and the links' PersonOrderCount and OrdersCount are the `n` argument of the call for the table they name; the links yield one row per personal order; the orders call's OrdersCount equals its `n` only when a guest count is given |
| Investigations.FixedPlan | investigations/investigations.py:271-278 | without a guest count the calls yield 25 menus, 120 personal orders, 15 baristas, 100 guests, 100 orders and 120 links; the orders call gets OrdersCount=120, not the 100 orders it yields |
| Investigations.ScaledPlan | investigations/investigations.py:279-287 | with g guests: g + ceil(g/7.5) personal orders and ceil(g/70) baristas |
| Investigations.SameLengthPlan | investigations/investigations.py:288-296 | with the same-length flag every table gets g rows |
| Investigations.BaristaCountsDiffer | investigations/investigations.py:282 | for 200 guests generate_all plans 3 baristas where DataGenerator derives 2 |

## Left out

- Database I/O is not modelled: connections, cursors, commits, printed errors, `create_database`, `SandboxCreator.connect`, `create_sandbox` and `copy_tables`. The store is an abstract executor whose answers are a parameter.
- `SHOW TABLES` and `SHOW CREATE TABLE` are replaced by parameters: the table names and their CREATE texts.
- OrmModel.Instance.GetAttr: the class lookup covers the names Model itself defines (the four connection settings, its methods and `_meta`). Names every Python object inherits (`__class__`, `__dict__`, `__doc__`, ...) are not modelled. A column named `_data` is not modelled either: `__init__` would recurse until RecursionError.
- Python's metaclass and `__subclasses__` are not modelled. The registry is an explicit list of (class name, docstring) pairs in definition order.
- `re` is not modelled. The regular expressions are written out as functions over ASCII characters, so Unicode word and space classes are left out.
- Randomness is not modelled. Each draw is an arbitrary number mapped into its `randrange`/`choice` domain.
- Generator.OrderIDGenerator: `random.shuffle` is a permutation parameter.
- Floating-point values are not modelled. FloatField values and prices are integers or reals, and timings are reals handed in per run.
- The timing itself, `get_max_id` and the foreign-key toggles before a DELETE are left out. Timings and max ids are parameters indexed by (row count, query).
- Plotting (`GraphBuilder`, saving and showing) is left out. A series is its x values, y values and label.
- `np.linspace(10, 1500, 9)` is the constant list of its nine integer values.
- QueryBuilder.Repr models the repr of ints and of strings up to U+00AD exactly: the controls, DEL, the C1 controls, NBSP and the soft hyphen become `\xhh`, and every other character is written as itself, as Python writes printable text such as `é` or Cyrillic. Non-printable code points above U+00AD (U+200B, U+2028, private-use and unassigned ones) are written raw, where Python writes `\u`/`\U` escapes. Float and bool cell values are not modelled.
- `generate` and the per-model generators of investigations/investigations.py are not part of this model. A call is recorded as its `n` argument and keyword counts; Investigations.RowsOf gives the rows it yields (range(n), or range(PersonOrderCount) for the links, as at investigations/investigations.py:217-223).
- The printed message of generate_all's last branch is not modelled. That branch is `None`.
- The `print(table_name)` in `create_many_to_many_table` is not modelled; only the statement it issues is.
- Text.Lower and Text.Upper change only ASCII letters, like the character classes; Unicode case mapping is left out.
- QueryBuilder.QueryGraph returns the plotted series rather than the `times` list that `query_graph` returns. The times list is the flattened TimeRows its contract reads the series from.
- `__repr__` and `__str__` of the models are not modelled. They only format text for display.
- lib/db_creator.py, lib/db_data_pusher.py, lib/db_data_changer.py, lib/db_backup_tool.py, lib/timer.py and lib/graphs_creator.py are not part of this model.
