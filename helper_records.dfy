/**
 * The plain records of lib/helper_classes.py that the generators fill and
 * the pusher inserts positionally. Each constructor checks the Python type
 * of its arguments in order and raises TypeError at the first that fails;
 * `to_turple` lists the fields in the column order of the insert.
 *
 * Integer fields keep the argument as given (`isinstance(True, int)` holds,
 * so a bool is stored as the bool); string fields hold the string.
 */
module Records {
  import opened Wrappers
  import opened Values

  /** The TypeError raised for the argument at this 1-based position. */
  datatype RecordError = TypeError(argument: nat)

  type Row = seq<Value>

  datatype Guest = Guest(id: Value, fullName: string, contactNumber: string)
  datatype Barista = Barista(id: Value, fullName: string, workTime: Value)
  datatype Orders = Orders(id: Value, orderData: string, baristaId: Value, guestId: Value)
  datatype OrdersHasOrder = OrdersHasOrder(id: Value, orderId: Value, ordersId: Value)
  datatype Order = Order(id: Value, count: Value, menuPosition: Value)
  datatype Menu = Menu(id: Value, name: string, price: Value)

  // ---------------------------------------------------------------- Guest

  function NewGuest(a: Value, b: Value, c: Value): (r: Result<Guest, RecordError>)
    ensures r.Ok? <==> IsInt(a) && IsStr(b) && IsStr(c)
    ensures r.Ok? ==> r.value.id == a && VStr(r.value.fullName) == b && VStr(r.value.contactNumber) == c
    ensures r.Err? ==> r.error.argument == (if !IsInt(a) then 1 else if !IsStr(b) then 2 else 3)
  {
    if !IsInt(a) then Err(TypeError(1))
    else if !IsStr(b) then Err(TypeError(2))
    else if !IsStr(c) then Err(TypeError(3))
    else Ok(Guest(a, b.s, c.s))
  }

  function GuestRow(g: Guest): (r: Row)
    ensures |r| == 3
  {
    [g.id, VStr(g.fullName), VStr(g.contactNumber)]
  }

  /** A guest built by the constructor gives back its own arguments, in order. */
  lemma GuestRoundTrip(a: Value, b: Value, c: Value)
    requires NewGuest(a, b, c).Ok?
    ensures GuestRow(NewGuest(a, b, c).value) == [a, b, c]
  {
  }

  // ---------------------------------------------------------------- Barista

  function NewBarista(a: Value, b: Value, c: Value): (r: Result<Barista, RecordError>)
    ensures r.Ok? <==> IsInt(a) && IsStr(b) && IsInt(c)
    ensures r.Ok? ==> r.value.id == a && VStr(r.value.fullName) == b && r.value.workTime == c
    ensures r.Err? ==> r.error.argument == (if !IsInt(a) then 1 else if !IsStr(b) then 2 else 3)
  {
    if !IsInt(a) then Err(TypeError(1))
    else if !IsStr(b) then Err(TypeError(2))
    else if !IsInt(c) then Err(TypeError(3))
    else Ok(Barista(a, b.s, c))
  }

  function BaristaRow(x: Barista): (r: Row)
    ensures |r| == 3
  {
    [x.id, VStr(x.fullName), x.workTime]
  }

  lemma BaristaRoundTrip(a: Value, b: Value, c: Value)
    requires NewBarista(a, b, c).Ok?
    ensures BaristaRow(NewBarista(a, b, c).value) == [a, b, c]
  {
  }

  // ---------------------------------------------------------------- Orders

  /** The date is any string: its MM-DD-YYYY check is commented out in the source. */
  function NewOrders(a: Value, b: Value, c: Value, d: Value): (r: Result<Orders, RecordError>)
    ensures r.Ok? <==> IsInt(a) && IsStr(b) && IsInt(c) && IsInt(d)
    ensures r.Ok? ==> r.value.id == a && VStr(r.value.orderData) == b && r.value.baristaId == c && r.value.guestId == d
    ensures r.Err? ==> r.error.argument == (if !IsInt(a) then 1 else if !IsStr(b) then 2 else if !IsInt(c) then 3 else 4)
  {
    if !IsInt(a) then Err(TypeError(1))
    else if !IsStr(b) then Err(TypeError(2))
    else if !IsInt(c) then Err(TypeError(3))
    else if !IsInt(d) then Err(TypeError(4))
    else Ok(Orders(a, b.s, c, d))
  }

  function OrdersRow(x: Orders): (r: Row)
    ensures |r| == 4
  {
    [x.id, VStr(x.orderData), x.baristaId, x.guestId]
  }

  lemma OrdersRoundTrip(a: Value, b: Value, c: Value, d: Value)
    requires NewOrders(a, b, c, d).Ok?
    ensures OrdersRow(NewOrders(a, b, c, d).value) == [a, b, c, d]
  {
  }

  /** Any string is accepted as the order date, whatever its format. */
  lemma OrdersAcceptAnyDate(id: int, date: string, barista: int, guest: int)
    ensures NewOrders(VInt(id), VStr(date), VInt(barista), VInt(guest)) == Ok(Orders(VInt(id), date, VInt(barista), VInt(guest)))
  {
  }

  // ---------------------------------------------------------------- Orders_has_Order

  function NewOrdersHasOrder(a: Value, b: Value, c: Value): (r: Result<OrdersHasOrder, RecordError>)
    ensures r.Ok? <==> IsInt(a) && IsInt(b) && IsInt(c)
    ensures r.Ok? ==> r.value.id == a && r.value.orderId == b && r.value.ordersId == c
    ensures r.Err? ==> r.error.argument == (if !IsInt(a) then 1 else if !IsInt(b) then 2 else 3)
  {
    if !IsInt(a) then Err(TypeError(1))
    else if !IsInt(b) then Err(TypeError(2))
    else if !IsInt(c) then Err(TypeError(3))
    else Ok(OrdersHasOrder(a, b, c))
  }

  /** The row lists OrdersID before OrderID: the reverse of the constructor's order. */
  function OrdersHasOrderRow(x: OrdersHasOrder): (r: Row)
    ensures |r| == 3
  {
    [x.id, x.ordersId, x.orderId]
  }

  /** The row gives back the constructor's arguments with the second and third swapped. */
  lemma OrdersHasOrderSwaps(a: Value, b: Value, c: Value)
    requires NewOrdersHasOrder(a, b, c).Ok?
    ensures OrdersHasOrderRow(NewOrdersHasOrder(a, b, c).value) == [a, c, b]
  {
  }

  /** So rebuilding a record from its own row gives the same record only when the two ids agree. */
  lemma OrdersHasOrderRebuild(x: OrdersHasOrder)
    requires IsInt(x.id) && IsInt(x.orderId) && IsInt(x.ordersId)
    ensures var t := OrdersHasOrderRow(x);
      NewOrdersHasOrder(t[0], t[1], t[2]) == Ok(x) <==> x.orderId == x.ordersId
  {
  }

  // ---------------------------------------------------------------- Order

  function NewOrder(a: Value, b: Value, c: Value): (r: Result<Order, RecordError>)
    ensures r.Ok? <==> IsInt(a) && IsInt(b) && IsInt(c)
    ensures r.Ok? ==> r.value.id == a && r.value.count == b && r.value.menuPosition == c
    ensures r.Err? ==> r.error.argument == (if !IsInt(a) then 1 else if !IsInt(b) then 2 else 3)
  {
    if !IsInt(a) then Err(TypeError(1))
    else if !IsInt(b) then Err(TypeError(2))
    else if !IsInt(c) then Err(TypeError(3))
    else Ok(Order(a, b, c))
  }

  function OrderRow(x: Order): (r: Row)
    ensures |r| == 3
  {
    [x.id, x.count, x.menuPosition]
  }

  lemma OrderRoundTrip(a: Value, b: Value, c: Value)
    requires NewOrder(a, b, c).Ok?
    ensures OrderRow(NewOrder(a, b, c).value) == [a, b, c]
  {
  }

  // ---------------------------------------------------------------- Menu

  /** Only the id and the name are checked; the price is stored whatever it is. */
  function NewMenu(a: Value, b: Value, c: Value): (r: Result<Menu, RecordError>)
    ensures r.Ok? <==> IsInt(a) && IsStr(b)
    ensures r.Ok? ==> r.value.id == a && VStr(r.value.name) == b && r.value.price == c
    ensures r.Err? ==> r.error.argument == (if !IsInt(a) then 1 else 2)
  {
    if !IsInt(a) then Err(TypeError(1))
    else if !IsStr(b) then Err(TypeError(2))
    else Ok(Menu(a, b.s, c))
  }

  function MenuRow(x: Menu): (r: Row)
    ensures |r| == 3
  {
    [x.id, VStr(x.name), x.price]
  }

  lemma MenuRoundTrip(a: Value, b: Value, c: Value)
    requires NewMenu(a, b, c).Ok?
    ensures MenuRow(NewMenu(a, b, c).value) == [a, b, c]
  {
  }
}
