/**
 * investigations/investigations.py: the same benchmark driver as main.py,
 * whose series are labelled with the table name instead of the query, and
 * `generate_all`, which chooses how many records of each table to generate.
 *
 * The per-model generators of that file are not part of this model: a call
 * to `generate` is recorded as its `n` argument and its keyword counts,
 * which is all generate_all decides, and RowsOf gives the rows it yields.
 */
module Investigations {
  import opened Wrappers
  import opened QueryBuilder
  import Generator
  import Values

  /**
   * query_graph of investigations.py: the runs of main.py, then one series
   * per query labelled table[i].
   */
  method QueryGraph(a: QueryArgs, numRowsList: Option<seq<int>>, maxIdAt: (nat, nat) -> int, timeAt: (nat, nat) -> real)
    returns (r: Result<seq<Series>, QueryError>)
    ensures var rows := RowCounts(numRowsList);
      r.Ok? <==> AllBuild(a, rows, maxIdAt) && |a.queryType| <= |a.table|
    ensures var rows := RowCounts(numRowsList);
      r.Ok? ==> (|r.value| == |a.queryType|
                 && forall i :: 0 <= i < |a.queryType| ==>
                      ReadsSeries(r.value[i], rows, a.table[i], Flatten(TimeRows(timeAt, |rows|, |a.queryType|)), i))
  {
    var rows := RowCounts(numRowsList);
    var run := RunQueries(a, rows, maxIdAt, timeAt);
    if run.Err? {
      return Err(run.error);
    }
    var times := run.value.0;
    FlattenLength(TimeRows(timeAt, |rows|, |a.queryType|), |a.queryType|);
    r := PlotSeries(times, rows, a.table, |a.queryType|);
  }

  /** Once a query has run, its table exists, so the table labels can only be short when nothing ran. */
  lemma TableLabelsAfterRun(a: QueryArgs, rows: seq<int>, maxIdAt: (nat, nat) -> int)
    requires AllBuild(a, rows, maxIdAt) && |rows| >= 1
    ensures |a.queryType| <= |a.table|
  {
    if |a.queryType| > 0 {
      var last := |a.queryType| - 1;
      assert QueryText(a, last, rows[0], maxIdAt(0, last)).Ok?;
      QueryUsesTable(a, last, rows[0], maxIdAt(0, last));
    }
  }

  // ---------------------------------------------------------------- generate_all

  /** One call generate(model, n, MenuCount=…, BaristaCount=…, OrdersCount=…, PersonOrderCount=…); `n` is its `n` argument. */
  datatype Call = Call(n: int, menuCount: Option<int>, baristaCount: Option<int>,
                       ordersCount: Option<int>, personOrderCount: Option<int>)

  function Rows(n: int): Call {
    Call(n, None, None, None, None)
  }

  /** The six calls, in the order of the returned tuple. */
  datatype Plan = Plan(menus: Call, personalOrders: Call, baristas: Call, guests: Call, orders: Call, ohos: Call)

  /**
   * The rows generate yields for a call. Every per-model generator loops over
   * range(n), except the links generator (`links`), whose loop runs over
   * PersonOrderCount, or n when that is None.
   */
  function RowsOf(c: Call, links: bool): nat {
    if links && c.personOrderCount.Some? then Generator.Max0(c.personOrderCount.value) else Generator.Max0(c.n)
  }

  /**
   * MenuCount of the personal orders, BaristaCount of the orders, and
   * PersonOrderCount and OrdersCount of the links are each the `n` argument
   * of the call for the table they refer to. OrdersCount of the orders call
   * is not among them: generator_orders yields n orders whatever it is.
   */
  predicate ReferencesAgree(p: Plan) {
    p.personalOrders.menuCount == Some(p.menus.n)
    && p.orders.baristaCount == Some(p.baristas.n)
    && p.ohos.personOrderCount == Some(p.personalOrders.n)
    && p.ohos.ordersCount == Some(p.orders.n)
  }

  /** generate_all; None is the branch that prints a message and returns 0. */
  function GenerateAll(guestCount: Option<int>, sameLength: bool): (r: Option<Plan>)
    ensures r.None? <==> guestCount.None? && sameLength
    ensures r.Some? ==> ReferencesAgree(r.value)
    ensures r.Some? ==> r.value.guests.n == r.value.orders.n
    ensures r.Some? ==> RowsOf(r.value.ohos, true) == RowsOf(r.value.personalOrders, false)
    ensures r.Some? ==> (r.value.orders.ordersCount == Some(r.value.orders.n) <==> guestCount.Some?)
  {
    if guestCount.None? && !sameLength then
      Some(Plan(Rows(25), Call(120, Some(25), None, None, None), Rows(15), Rows(100),
                Call(100, None, Some(15), Some(120), None), Call(100, None, None, Some(100), Some(120))))
    else if guestCount.Some? && !sameLength then
      var g := guestCount.value;
      var personal := Generator.DefaultOrderCount(g);
      var baristas := Generator.CeilDiv(g, 70);
      Some(Plan(Rows(25), Call(personal, Some(25), None, None, None), Rows(baristas), Rows(g),
                Call(g, None, Some(baristas), Some(g), None), Call(g, None, None, Some(g), Some(personal))))
    else if guestCount.Some? && sameLength then
      var g := guestCount.value;
      Some(Plan(Rows(g), Call(g, Some(g), None, None, None), Rows(g), Rows(g),
                Call(g, None, Some(g), Some(g), None), Call(g, None, None, Some(g), Some(g))))
    else None
  }

  /**
   * Without a guest count: 25 menus, 120 personal orders, 15 baristas, 100
   * guests, 100 orders and 120 links. The orders call is handed
   * OrdersCount=120, which is not the 100 orders it yields.
   */
  lemma FixedPlan()
    ensures var p := GenerateAll(None, false).value;
      && p.menus.n == 25 && p.personalOrders.n == 120 && p.baristas.n == 15
      && p.guests.n == 100 && p.orders.n == 100 && p.ohos.n == 100
      && RowsOf(p.menus, false) == 25 && RowsOf(p.personalOrders, false) == 120
      && RowsOf(p.baristas, false) == 15 && RowsOf(p.guests, false) == 100
      && RowsOf(p.orders, false) == 100 && RowsOf(p.ohos, true) == 120
      && p.orders.ordersCount == Some(120) && p.ohos.ordersCount == Some(RowsOf(p.orders, false))
  {
  }

  /** With a guest count g, personal orders are g + ceil(g / 7.5) and baristas ceil(g / 70). */
  lemma ScaledPlan(g: int)
    ensures var p := GenerateAll(Some(g), false).value;
      p.guests.n == g && p.menus.n == 25
      && (p.personalOrders.n - g - 1) as real < g as real / 7.5 <= (p.personalOrders.n - g) as real
      && (p.baristas.n - 1) * 70 < g <= p.baristas.n * 70
  {
  }

  /** With the same-length flag, every table gets g rows. */
  lemma SameLengthPlan(g: int)
    ensures var p := GenerateAll(Some(g), true).value;
      p.menus.n == p.personalOrders.n == p.baristas.n == p.guests.n == p.orders.n == p.ohos.n == g
  {
  }

  /**
   * generate_all and DataGenerator disagree on the number of baristas for
   * the same guests: ceil(g / 70) here, ceil(g / 100) in DataGenerator; for
   * 200 guests that is 3 against 2. The personal orders agree.
   */
  lemma BaristaCountsDiffer()
    ensures GenerateAll(Some(200), false).value.baristas.n == 3
    ensures Generator.Init(Values.VInt(200), Values.VNone, Values.VNone, Values.VNone, Values.VNone).value.baristaCount == 2
    ensures GenerateAll(Some(200), false).value.personalOrders.n
      == Generator.Init(Values.VInt(200), Values.VNone, Values.VNone, Values.VNone, Values.VNone).value.orderCount.value
  {
    Generator.InitDefaults();
  }
}
