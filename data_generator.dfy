/**
 * The synthetic data of lib/data_generator.py: the record counts a
 * DataGenerator derives from its arguments and the shape and range of every
 * generated record.
 *
 * Randomness is a parameter. A `Stream` is the run of raw draws the random
 * module hands to one record; `randrange`, `choice` and `choices` turn a raw
 * draw into a value as the functions below say. Which raw draw the module
 * produces is left open, so every property holds for every run.
 */
module Generator {
  import opened Wrappers
  import opened Values
  import opened Text
  import opened Records

  /** The raw draws for one record, in the order it asks for them. */
  type Stream = nat -> nat

  datatype GenError =
    | TypeError(argument: string)   // __init__ rejects a count
    | AttributeError(name: string)  // an attribute __init__ never set
    | IndexError                    // random.choice / random.choices on an empty list

  /** The counts a DataGenerator holds; `orderCount` is None when the attribute was never set. */
  datatype Counts = Counts(
    guestCount: int, baristaCount: int, menuCount: int, orderCount: Option<int>, ordersCount: int)

  // ---------------------------------------------------------------- __init__

  /** math.ceil(a / b) for a positive integer divisor. */
  function CeilDiv(a: int, b: nat): (r: int)
    requires b > 0
    ensures (r - 1) * b < a <= r * b
  {
    -((-a) / b)
  }

  /** The default OrderCount: guests plus math.ceil(guests / 7.5). */
  function DefaultOrderCount(g: int): (r: int)
    ensures (r - g - 1) as real < g as real / 7.5 <= (r - g) as real
  {
    var k := CeilDiv(2 * g, 15);
    assert (k - 1) * 15 < 2 * g <= k * 15;
    assert g as real / 7.5 == (2 * g) as real / 15.0;
    g + k
  }

  /** isinstance(v, int) or v is None */
  predicate IntOrNone(v: Value) {
    IsInt(v) || v == VNone
  }

  /**
   * The outcome of DataGenerator(GuestCount, BaristaCount, MenuCount,
   * OrderCount, OrdersCount), with None for an argument left out. A passed
   * OrderCount is never stored: that branch assigns OrdersCount instead,
   * which the next branch overwrites, so OrderCount stays unset.
   */
  function Init(guest: Value, barista: Value, menu: Value, order: Value, orders: Value): (r: Result<Counts, GenError>)
    ensures r.Ok? <==> IsInt(guest) && IntOrNone(barista) && IntOrNone(menu) && IntOrNone(order) && IntOrNone(orders)
    ensures r.Err? ==> r.error == GenError.TypeError(
      if !IsInt(guest) then "GuestCount" else if !IntOrNone(barista) then "BaristaCount"
      else if !IntOrNone(menu) then "MenuCount" else if !IntOrNone(order) then "OrderCount" else "OrdersCount")
    ensures r.Ok? ==> r.value.guestCount == AsInt(guest)
    ensures r.Ok? && barista != VNone ==> r.value.baristaCount == AsInt(barista)
    ensures r.Ok? && barista == VNone ==> (r.value.baristaCount - 1) * 100 < AsInt(guest) <= r.value.baristaCount * 100
    ensures r.Ok? ==> r.value.menuCount == if menu == VNone then 25 else AsInt(menu)
    ensures r.Ok? ==> (r.value.orderCount.Some? <==> order == VNone)
    ensures r.Ok? && order == VNone ==> var k := r.value.orderCount.value - AsInt(guest);
      (k - 1) as real < AsInt(guest) as real / 7.5 <= k as real
    ensures r.Ok? ==> r.value.ordersCount == if orders == VNone then AsInt(guest) else AsInt(orders)
  {
    if !IsInt(guest) then Err(GenError.TypeError("GuestCount"))
    else if !IntOrNone(barista) then Err(GenError.TypeError("BaristaCount"))
    else if !IntOrNone(menu) then Err(GenError.TypeError("MenuCount"))
    else if !IntOrNone(order) then Err(GenError.TypeError("OrderCount"))
    else if !IntOrNone(orders) then Err(GenError.TypeError("OrdersCount"))
    else
      var g := AsInt(guest);
      Ok(Counts(
        g,
        if barista != VNone then AsInt(barista) else CeilDiv(g, 100),
        if menu != VNone then AsInt(menu) else 25,
        if order != VNone then None else Some(DefaultOrderCount(g)),
        if orders != VNone then AsInt(orders) else g))
  }

  /** The generator object: __init__ sets the counts branch by branch. */
  class DataGenerator {
    var guestCount: int
    var baristaCount: int
    var menuCount: int
    var orderCount: Option<int>
    var ordersCount: int

    /** The counts the object holds, which every generator reads. */
    function Snapshot(): Counts
      reads this
    {
      Counts(guestCount, baristaCount, menuCount, orderCount, ordersCount)
    }

    /** __init__ once its type checks have passed. */
    constructor(guest: Value, barista: Value, menu: Value, order: Value, orders: Value)
      requires Init(guest, barista, menu, order, orders).Ok?
      ensures Snapshot() == Init(guest, barista, menu, order, orders).value
    {
      var g := AsInt(guest);
      guestCount := g;
      if barista != VNone {
        baristaCount := AsInt(barista);
      } else {
        baristaCount := CeilDiv(g, 100);
      }
      if menu != VNone {
        menuCount := AsInt(menu);
      } else {
        menuCount := 25;
      }
      if order != VNone {
        // this branch stores OrdersCount, which the next branch overwrites: OrderCount is never set
        orderCount := None;
      } else {
        orderCount := Some(DefaultOrderCount(g));
      }
      if orders != VNone {
        ordersCount := AsInt(orders);
      } else {
        ordersCount := g;
      }
    }
  }

  /** DataGenerator(...): the TypeError of the first rejected count, or the new generator. */
  method NewDataGenerator(guest: Value, barista: Value, menu: Value, order: Value, orders: Value)
    returns (r: Result<DataGenerator, GenError>)
    ensures r.Err? <==> Init(guest, barista, menu, order, orders).Err?
    ensures r.Err? ==> r.error == Init(guest, barista, menu, order, orders).error
    ensures r.Ok? ==> fresh(r.value) && r.value.Snapshot() == Init(guest, barista, menu, order, orders).value
  {
    var checked := Init(guest, barista, menu, order, orders);
    if checked.Err? {
      return Err(checked.error);
    }
    var gen := new DataGenerator(guest, barista, menu, order, orders);
    return Ok(gen);
  }

  /** DataGenerator(200): two baristas, 25 menu positions, 227 personal orders, 200 orders. */
  lemma InitDefaults()
    ensures Init(VInt(200), VNone, VNone, VNone, VNone) == Ok(Counts(200, 2, 25, Some(227), 200))
  {
  }

  /** DataGenerator(150, BaristaCount=5, MenuCount=30, OrdersCount=180) still derives 170 personal orders. */
  lemma InitCustom()
    ensures Init(VInt(150), VInt(5), VInt(30), VNone, VInt(180)) == Ok(Counts(150, 5, 30, Some(170), 180))
  {
  }

  /** The value passed as OrderCount changes nothing: any two integers give the same generator. */
  lemma OrderCountIgnored(guest: Value, barista: Value, menu: Value, k: int, j: int, orders: Value)
    ensures Init(guest, barista, menu, VInt(k), orders) == Init(guest, barista, menu, VInt(j), orders)
    ensures Init(guest, barista, menu, VInt(k), orders).Ok? ==> Init(guest, barista, menu, VInt(k), orders).value.orderCount == None
  {
  }

  // ---------------------------------------------------------------- random draws

  function Max0(n: int): nat {
    if n < 0 then 0 else n
  }

  /** random.randrange(lo, hi) for the raw draw `pick`. */
  function RandRange(lo: int, hi: int, pick: nat): (r: int)
    requires lo < hi
    ensures lo <= r < hi
  {
    lo + pick % (hi - lo)
  }

  /** Every value of the range is drawn by some raw draw. */
  lemma RandRangeReaches(lo: int, hi: int, v: int)
    requires lo <= v < hi
    ensures RandRange(lo, hi, v - lo) == v
  {
  }

  /** random.choice(string.ascii_lowercase) */
  function Letter(pick: nat): (c: char)
    ensures IsLowerLetter(c)
  {
    (('a' as int) + pick % 26) as char
  }

  /** A word of random.randrange(lo, hi) random lower-case letters. */
  function RandomWord(lo: nat, hi: nat, s: Stream): (w: string)
    requires lo < hi
    ensures lo <= |w| < hi && forall k :: 0 <= k < |w| ==> IsLowerLetter(w[k])
  {
    var w := seq(RandRange(lo, hi, s(0)), k requires 0 <= k => Letter(s(k + 1)));
    assert forall k :: 0 <= k < |w| ==> w[k] == Letter(s(k + 1));
    w
  }

  /** random.choice(xs) for a non-empty list. */
  function Choice(xs: seq<int>, pick: nat): (r: int)
    requires |xs| > 0
    ensures r in xs
  {
    xs[pick % |xs|]
  }

  /** n draws of random.choice(pool): IndexError when there is something to draw and nothing to draw from. */
  function Choices(pool: seq<int>, n: int, picks: nat -> nat): (r: Result<seq<int>, GenError>)
    ensures r.Err? <==> n > 0 && |pool| == 0
    ensures r.Err? ==> r.error == IndexError
    ensures r.Ok? ==> |r.value| == Max0(n) && forall i :: 0 <= i < |r.value| ==> r.value[i] in pool
  {
    if n > 0 && |pool| == 0 then Err(IndexError)
    else
      var r := seq(Max0(n), i requires 0 <= i < Max0(n) => Choice(pool, picks(i)));
      assert forall i :: 0 <= i < |r| ==> r[i] == Choice(pool, picks(i));
      Ok(r)
  }

  // ---------------------------------------------------------------- IDs

  /** IDGenerator(count): the IDs 1..count in order. */
  function IDGenerator(count: int): (r: seq<int>)
    ensures |r| == Max0(count) && forall i :: 0 <= i < |r| ==> r[i] == i + 1
    ensures forall x :: x in r <==> 1 <= x <= count
    decreases Max0(count)
  {
    if count <= 0 then [] else IDGenerator(count - 1) + [count]
  }

  /** `count` when given, the generator's default otherwise. */
  function CountOr(count: Option<int>, default: int): int {
    match count
    case Some(n) => n
    case None => default
  }

  // ---------------------------------------------------------------- Menu

  /** A menu name: 4 to 9 lower-case letters. */
  function MenuName(s: Stream): (w: string)
    ensures 4 <= |w| <= 9 && forall k :: 0 <= k < |w| ==> IsLowerLetter(w[k])
  {
    RandomWord(4, 10, s)
  }

  /** random.randrange(159, 500, 20): one of the 18 prices 159, 179, ..., 499. */
  function Price(pick: nat): (p: int)
    ensures 159 <= p <= 499 && (p - 159) % 20 == 0
  {
    159 + 20 * RandRange(0, 18, pick)
  }

  /** Every price of the range is drawn by some raw draw. */
  lemma PriceReaches(p: int)
    requires 159 <= p <= 499 && (p - 159) % 20 == 0
    ensures Price((p - 159) / 20) == p
  {
  }

  /** MenuGenerator(count): records 1..count with a random name and price each. */
  function MenuGenerator(gen: Counts, count: Option<int>, names: nat -> Stream, prices: nat -> nat): (r: seq<Menu>)
    ensures |r| == Max0(CountOr(count, gen.menuCount))
    ensures forall i :: 0 <= i < |r| ==>
      && r[i].id == VInt(i + 1)
      && 4 <= |r[i].name| <= 9
      && r[i].name == MenuName(names(i))
      && r[i].price.VInt? && 159 <= r[i].price.i <= 499 && (r[i].price.i - 159) % 20 == 0
  {
    var n := CountOr(count, gen.menuCount);
    var ids := IDGenerator(n);
    seq(Max0(n), i requires 0 <= i < Max0(n) => Menu(VInt(ids[i]), MenuName(names(i)), VInt(Price(prices(i)))))
  }

  // ---------------------------------------------------------------- Order (Personal_order)

  /** CountGenerator: 1, 2 or 3 items. */
  function ItemCount(pick: nat): (c: int)
    ensures 1 <= c <= 3
  {
    RandRange(1, 4, pick)
  }

  /**
   * OrderGenerator(count): records 1..count with an item count and a menu
   * position drawn from 1..MenuCount. Without a count it needs OrderCount.
   */
  function OrderGenerator(gen: Counts, count: Option<int>, counts: nat -> nat, menuPicks: nat -> nat): (r: Result<seq<Order>, GenError>)
    ensures count.None? && gen.orderCount.None? ==> r == Err(AttributeError("OrderCount"))
    ensures (count.Some? || gen.orderCount.Some?) ==>
      var n := if count.Some? then count.value else gen.orderCount.value;
      && (r.Err? <==> n > 0 && gen.menuCount <= 0)
      && (r.Err? ==> r.error == IndexError)
      && (r.Ok? ==> |r.value| == Max0(n))
    ensures r.Ok? ==> forall i :: 0 <= i < |r.value| ==>
      && r.value[i].id == VInt(i + 1)
      && r.value[i].count.VInt? && 1 <= r.value[i].count.i <= 3
      && r.value[i].menuPosition.VInt? && 1 <= r.value[i].menuPosition.i <= gen.menuCount
  {
    if count.None? && gen.orderCount.None? then Err(AttributeError("OrderCount"))
    else
      var n := if count.Some? then count.value else gen.orderCount.value;
      OrdersOfSize(gen.menuCount, n, counts, menuPicks)
  }

  /** The n order records, once the count is known. */
  function OrdersOfSize(menuCount: int, n: int, counts: nat -> nat, menuPicks: nat -> nat): (r: Result<seq<Order>, GenError>)
    ensures r.Err? <==> n > 0 && menuCount <= 0
    ensures r.Err? ==> r.error == IndexError
    ensures r.Ok? ==> |r.value| == Max0(n)
    ensures r.Ok? ==> forall i :: 0 <= i < |r.value| ==>
      && r.value[i].id == VInt(i + 1)
      && r.value[i].count.VInt? && 1 <= r.value[i].count.i <= 3
      && r.value[i].menuPosition.VInt? && 1 <= r.value[i].menuPosition.i <= menuCount
  {
    var ids := IDGenerator(n);
    var menuIds := Choices(IDGenerator(menuCount), n, menuPicks);
    if menuIds.Err? then Err(menuIds.error)
    else
      assert forall i :: 0 <= i < |menuIds.value| ==> 1 <= menuIds.value[i] <= menuCount;
      var rs := OrderRecords(ids, counts, menuIds.value);
      assert forall i :: 0 <= i < |rs| ==> rs[i].id == VInt(i + 1);
      Ok(rs)
  }

  /** `[Order(IDs[i], Counts[i], MenuIDs[i]) for i in range(count)]` */
  function OrderRecords(ids: seq<int>, counts: nat -> nat, menuIds: seq<int>): (r: seq<Order>)
    requires |menuIds| == |ids|
    ensures |r| == |ids|
    ensures forall i :: 0 <= i < |r| ==>
      r[i].id == VInt(ids[i]) && r[i].count.VInt? && 1 <= r[i].count.i <= 3 && r[i].menuPosition == VInt(menuIds[i])
  {
    var r := seq(|ids|, i requires 0 <= i < |ids| => Order(VInt(ids[i]), VInt(ItemCount(counts(i))), VInt(menuIds[i])));
    assert forall i :: 0 <= i < |r| ==> r[i] == Order(VInt(ids[i]), VInt(ItemCount(counts(i))), VInt(menuIds[i]));
    r
  }

  // ---------------------------------------------------------------- full names

  /** `s[0].upper() + s[1:]` on a lower-case word. */
  function Capitalize(w: string): (r: string)
    requires |w| > 0
    ensures |r| == |w| && (IsLowerLetter(w[0]) ==> IsUpperLetter(r[0])) && r[1..] == w[1..]
  {
    var c := if IsLowerLetter(w[0]) then ((w[0] as int) - 32) as char else w[0];
    assert ([c] + w[1..])[1..] == w[1..];
    [c] + w[1..]
  }

  /** A capitalised word of ASCII letters. */
  predicate IsNamePart(w: string, lo: nat, hi: nat) {
    0 < |w| && lo <= |w| <= hi && IsUpperLetter(w[0]) && forall k :: 1 <= k < |w| ==> IsLowerLetter(w[k])
  }

  /** "Surname Name Midname" from the three draws of one person. */
  function FullName(surname: Stream, name: Stream, midname: Stream): string {
    Capitalize(RandomWord(6, 13, surname)) + " " + Capitalize(RandomWord(4, 9, name)) + " " + Capitalize(RandomWord(7, 15, midname))
  }

  lemma CapitalizedWord(lo: nat, hi: nat, s: Stream)
    requires 0 < lo < hi
    ensures IsNamePart(Capitalize(RandomWord(lo, hi, s)), lo, hi - 1)
  {
    var w := RandomWord(lo, hi, s);
    var r := Capitalize(w);
    forall k | 1 <= k < |r|
      ensures IsLowerLetter(r[k])
    {
      assert r[k] == r[1..][k - 1] == w[1..][k - 1] == w[k];
    }
  }

  /**
   * A full name is three capitalised words of 6-12, 4-8 and 7-14 letters
   * separated by single spaces, so it splits into exactly three words and
   * is at most 36 characters long.
   */
  lemma FullNameShape(surname: Stream, name: Stream, midname: Stream)
    ensures var f := FullName(surname, name, midname);
      var ws := Words(f);
      && |ws| == 3
      && IsNamePart(ws[0], 6, 12) && IsNamePart(ws[1], 4, 8) && IsNamePart(ws[2], 7, 14)
      && f == ws[0] + " " + ws[1] + " " + ws[2]
      && 19 <= |f| <= 36
  {
    var a := Capitalize(RandomWord(6, 13, surname));
    var b := Capitalize(RandomWord(4, 9, name));
    var c := Capitalize(RandomWord(7, 15, midname));
    CapitalizedWord(6, 13, surname);
    CapitalizedWord(4, 9, name);
    CapitalizedWord(7, 15, midname);
    LettersHaveNoSpace(a);
    LettersHaveNoSpace(b);
    LettersHaveNoSpace(c);
    WordsOfThree(a, b, c);
  }

  lemma LettersHaveNoSpace(w: string)
    requires |w| > 0 && IsUpperLetter(w[0]) && forall k :: 1 <= k < |w| ==> IsLowerLetter(w[k])
    ensures w != "" && NoSpace(w)
  {
  }

  /** `[''.join(...) for _ in range(count)]`: one random word per person. */
  function Draws(n: nat, lo: nat, hi: nat, streams: nat -> Stream): (r: seq<string>)
    requires 0 < lo < hi
    ensures |r| == n && forall k :: 0 <= k < n ==> r[k] == RandomWord(lo, hi, streams(k)) && r[k] != ""
  {
    var r := seq(n, k requires 0 <= k < n => RandomWord(lo, hi, streams(k)));
    assert forall k :: 0 <= k < n ==> r[k] == RandomWord(lo, hi, streams(k));
    r
  }

  /** The words after the first i of them have been capitalised in place. */
  function CapitalizedUpTo(ws: seq<string>, i: nat): (r: seq<string>)
    requires forall k :: 0 <= k < |ws| ==> ws[k] != ""
    ensures |r| == |ws|
    ensures forall k :: 0 <= k < |ws| ==> r[k] == if k < i then Capitalize(ws[k]) else ws[k]
  {
    seq(|ws|, k requires 0 <= k < |ws| => if k < i then Capitalize(ws[k]) else ws[k])
  }

  /** Capitalising word i of the list in place moves the boundary by one. */
  lemma CapitalizeStep(ws: seq<string>, i: nat)
    requires forall k :: 0 <= k < |ws| ==> ws[k] != ""
    requires i < |ws|
    ensures CapitalizedUpTo(ws, i)[i := Capitalize(CapitalizedUpTo(ws, i)[i])] == CapitalizedUpTo(ws, i + 1)
  {
  }

  /** The loop of FullNamesGeneartor that capitalises the three lists in place. */
  method CapitalizeLists(ns0: seq<string>, ss0: seq<string>, ms0: seq<string>)
    returns (ns: seq<string>, ss: seq<string>, ms: seq<string>)
    requires |ss0| == |ns0| && |ms0| == |ns0|
    requires forall k :: 0 <= k < |ns0| ==> ns0[k] != "" && ss0[k] != "" && ms0[k] != ""
    ensures ns == CapitalizedUpTo(ns0, |ns0|) && ss == CapitalizedUpTo(ss0, |ns0|) && ms == CapitalizedUpTo(ms0, |ns0|)
  {
    ns, ss, ms := ns0, ss0, ms0;
    for i := 0 to |ns|
      invariant ns == CapitalizedUpTo(ns0, i)
      invariant ss == CapitalizedUpTo(ss0, i)
      invariant ms == CapitalizedUpTo(ms0, i)
    {
      CapitalizeStep(ns0, i);
      CapitalizeStep(ss0, i);
      CapitalizeStep(ms0, i);
      ns := ns[i := Capitalize(ns[i])];
      ss := ss[i := Capitalize(ss[i])];
      ms := ms[i := Capitalize(ms[i])];
    }
  }

  /**
   * FullNamesGeneartor(count): draws the names, surnames and midnames,
   * capitalises the three lists in place, then joins each person's parts.
   */
  method FullNames(count: int, names: nat -> Stream, surnames: nat -> Stream, midnames: nat -> Stream) returns (r: seq<string>)
    ensures |r| == Max0(count)
    ensures forall i :: 0 <= i < |r| ==> r[i] == FullName(surnames(i), names(i), midnames(i))
  {
    var n := Max0(count);
    var ns0 := Draws(n, 4, 9, names);
    var ss0 := Draws(n, 6, 13, surnames);
    var ms0 := Draws(n, 7, 15, midnames);
    var ns, ss, ms := CapitalizeLists(ns0, ss0, ms0);
    r := seq(n, i requires 0 <= i < n => ss[i] + " " + ns[i] + " " + ms[i]);
    forall i | 0 <= i < n
      ensures r[i] == FullName(surnames(i), names(i), midnames(i))
    {
      assert r[i] == ss[i] + " " + ns[i] + " " + ms[i];
    }
  }

  // ---------------------------------------------------------------- Barista

  /** random.randrange(80, 280, 8): one of the 25 work times 80, 88, ..., 272 hours. */
  function WorkTime(pick: nat): (t: int)
    ensures 80 <= t <= 272 && (t - 80) % 8 == 0
  {
    80 + 8 * RandRange(0, 25, pick)
  }

  /** BaristaGenerator(count): records 1..count with a full name and a work time each. */
  method BaristaGenerator(gen: Counts, count: Option<int>, names: nat -> Stream, surnames: nat -> Stream,
                          midnames: nat -> Stream, hours: nat -> nat) returns (r: seq<Barista>)
    ensures |r| == Max0(CountOr(count, gen.baristaCount))
    ensures forall i :: 0 <= i < |r| ==>
      && r[i].id == VInt(i + 1)
      && r[i].fullName == FullName(surnames(i), names(i), midnames(i))
      && r[i].workTime.VInt? && 80 <= r[i].workTime.i <= 272 && (r[i].workTime.i - 80) % 8 == 0
  {
    var n := CountOr(count, gen.baristaCount);
    var ids := IDGenerator(n);
    var fullNames := FullNames(n, names, surnames, midnames);
    r := seq(Max0(n), i requires 0 <= i < Max0(n) => Barista(VInt(ids[i]), fullNames[i], VInt(WorkTime(hours(i)))));
    assert forall i :: 0 <= i < |r| ==> r[i] == Barista(VInt(ids[i]), fullNames[i], VInt(WorkTime(hours(i))));
  }

  // ---------------------------------------------------------------- Guest

  lemma NatToStringSmall(n: nat)
    ensures n < 10 ==> |NatToString(n)| == 1
    ensures 10 <= n < 100 ==> |NatToString(n)| == 2
    ensures 100 <= n < 1000 ==> |NatToString(n)| == 3
  {
    if n >= 10 {
      NatToStringSmall(n / 10);
    }
  }

  /** str(random.randrange(900, 997)): a 3-digit area code from 900 to 996. */
  function AreaCode(pick: nat): (t: string)
    ensures |t| == 3 && AllDigits(t) && 900 <= DigitsValue(t) <= 996
  {
    var a := RandRange(900, 997, pick);
    NatToStringSmall(a);
    DigitsValueOfNatToString(a);
    NatToString(a)
  }

  /** str(random.randrange(0, 9)): one digit from 0 to 8 (9 is never drawn). */
  function DigitText(pick: nat): (t: string)
    ensures |t| == 1 && IsDigit(t[0]) && t[0] != '9'
  {
    var d := RandRange(0, 9, pick);
    NatToStringSmall(d);
    assert NatToString(d) == [DigitChar(d)];
    NatToString(d)
  }

  /** ContactNumberGenerator: "+7(AAA)BBB-CC-DD" from one person's draws. */
  function Phone(s: Stream): string {
    "+7(" + AreaCode(s(0)) + ")" + DigitText(s(1)) + DigitText(s(2)) + DigitText(s(3)) + "-"
      + DigitText(s(4)) + DigitText(s(5)) + "-" + DigitText(s(6)) + DigitText(s(7))
  }

  /** A phone number is 16 characters: "+7(", a 3-digit area code 900-996, ")", then ddd-dd-dd. */
  lemma PhoneShape(s: Stream)
    ensures var p := Phone(s);
      && |p| == 16
      && p[..3] == "+7(" && p[6] == ')' && p[10] == '-' && p[13] == '-'
      && AllDigits(p[3..6]) && 900 <= DigitsValue(p[3..6]) <= 996
      && AllDigits(p[7..10]) && AllDigits(p[11..13]) && AllDigits(p[14..])
  {
    var p := Phone(s);
    var a := AreaCode(s(0));
    var g1 := DigitText(s(1)) + DigitText(s(2)) + DigitText(s(3));
    var g2 := DigitText(s(4)) + DigitText(s(5));
    var g3 := DigitText(s(6)) + DigitText(s(7));
    assert p == "+7(" + a + ")" + g1 + "-" + g2 + "-" + g3;
    assert p[..3] == "+7(";
    assert p[3..6] == a;
    assert p[7..10] == g1;
    assert p[11..13] == g2;
    assert p[14..] == g3;
  }

  /** GuestGenerator(count): records 1..count with a full name and a phone number each. */
  method GuestGenerator(gen: Counts, count: Option<int>, names: nat -> Stream, surnames: nat -> Stream,
                        midnames: nat -> Stream, phones: nat -> Stream) returns (r: seq<Guest>)
    ensures |r| == Max0(CountOr(count, gen.guestCount))
    ensures forall i :: 0 <= i < |r| ==>
      && r[i].id == VInt(i + 1)
      && r[i].fullName == FullName(surnames(i), names(i), midnames(i))
      && r[i].contactNumber == Phone(phones(i))
  {
    var n := CountOr(count, gen.guestCount);
    var ids := IDGenerator(n);
    var fullNames := FullNames(n, names, surnames, midnames);
    r := GuestRecords(ids, fullNames, phones);
  }

  /** `[Guest(IDs[i], FullNames[i], ContactNumbers[i]) for i in range(count)]` */
  function GuestRecords(ids: seq<int>, fullNames: seq<string>, phones: nat -> Stream): (r: seq<Guest>)
    requires |fullNames| == |ids|
    ensures |r| == |ids|
    ensures forall i :: 0 <= i < |r| ==>
      r[i].id == VInt(ids[i]) && r[i].fullName == fullNames[i] && r[i].contactNumber == Phone(phones(i))
  {
    var r := seq(|ids|, i requires 0 <= i < |ids| => Guest(VInt(ids[i]), fullNames[i], Phone(phones(i))));
    assert forall i :: 0 <= i < |r| ==> r[i] == Guest(VInt(ids[i]), fullNames[i], Phone(phones(i)));
    r
  }

  // ---------------------------------------------------------------- Orders

  /** DatesGenerator: "M-D-2024" with month 1-12 and day 1-30, without leading zeros. */
  function Date(s: Stream): string {
    NatToString(RandRange(1, 13, s(0))) + "-" + NatToString(RandRange(1, 31, s(1))) + "-2024"
  }

  /**
   * A date is "M-D-2024": a month 1 to 12 and a day 1 to 30 written without
   * leading zeros, so 8 to 10 characters long and ending in "-2024".
   */
  lemma DateShape(s: Stream)
    ensures var d := Date(s);
      exists month: nat, day: nat :: 1 <= month <= 12 && 1 <= day <= 30
        && d == NatToString(month) + "-" + NatToString(day) + "-2024"
    ensures var d := Date(s); 8 <= |d| <= 10 && d[|d| - 5..] == "-2024"
  {
    var month, day := RandRange(1, 13, s(0)), RandRange(1, 31, s(1));
    NatToStringSmall(month);
    NatToStringSmall(day);
    assert Date(s) == NatToString(month) + "-" + NatToString(day) + "-2024";
  }

  /**
   * OrdersGenerator(count): records 1..count with a date, a barista drawn
   * from 1..BaristaCount and a guest drawn from 1..GuestCount.
   */
  function OrdersGenerator(gen: Counts, count: Option<int>, dates: nat -> Stream,
                           baristaPicks: nat -> nat, guestPicks: nat -> nat): (r: Result<seq<Orders>, GenError>)
    ensures var n := CountOr(count, gen.ordersCount);
      && (r.Err? <==> n > 0 && (gen.baristaCount <= 0 || gen.guestCount <= 0))
      && (r.Err? ==> r.error == IndexError)
      && (r.Ok? ==> |r.value| == Max0(n))
    ensures r.Ok? ==> forall i :: 0 <= i < |r.value| ==>
      && r.value[i].id == VInt(i + 1)
      && r.value[i].orderData == Date(dates(i))
      && r.value[i].baristaId.VInt? && 1 <= r.value[i].baristaId.i <= gen.baristaCount
      && r.value[i].guestId.VInt? && 1 <= r.value[i].guestId.i <= gen.guestCount
  {
    var n := CountOr(count, gen.ordersCount);
    var ids := IDGenerator(n);
    var baristaIds := Choices(IDGenerator(gen.baristaCount), n, baristaPicks);
    var guestIds := Choices(IDGenerator(gen.guestCount), n, guestPicks);
    if baristaIds.Err? then Err(baristaIds.error)
    else if guestIds.Err? then Err(guestIds.error)
    else
      Ok(seq(Max0(n), i requires 0 <= i < Max0(n) =>
        Orders(VInt(ids[i]), Date(dates(i)), VInt(baristaIds.value[i]), VInt(guestIds.value[i]))))
  }

  // ---------------------------------------------------------------- Orders_has_Order

  /**
   * Orders_has_OrderGenerator(count, existing_order_ids): record i links
   * personal order i (its own ID) to an order drawn from the existing IDs,
   * which default to the empty list.
   */
  function OrdersHasOrderGenerator(gen: Counts, count: Option<int>, existing: Option<seq<int>>,
                                   picks: nat -> nat): (r: Result<seq<OrdersHasOrder>, GenError>)
    ensures count.None? && gen.orderCount.None? ==> r == Err(AttributeError("OrderCount"))
    ensures (count.Some? || gen.orderCount.Some?) ==>
      var n := if count.Some? then count.value else gen.orderCount.value;
      var pool := if existing.Some? then existing.value else [];
      && (r.Err? <==> n > 0 && |pool| == 0)
      && (r.Err? ==> r.error == IndexError)
      && (r.Ok? ==> |r.value| == Max0(n))
      && (r.Ok? ==> forall i :: 0 <= i < |r.value| ==>
            && r.value[i].id == VInt(i + 1) && r.value[i].orderId == VInt(i + 1)
            && r.value[i].ordersId.VInt? && r.value[i].ordersId.i in pool)
  {
    if count.None? && gen.orderCount.None? then Err(AttributeError("OrderCount"))
    else
      var n := if count.Some? then count.value else gen.orderCount.value;
      var pool := if existing.Some? then existing.value else [];
      var ids := IDGenerator(n);
      var orderIds := Choices(pool, n, picks);
      if orderIds.Err? then Err(orderIds.error)
      else Ok(seq(Max0(n), i requires 0 <= i < Max0(n) => OrdersHasOrder(VInt(ids[i]), VInt(ids[i]), VInt(orderIds.value[i]))))
  }

  // ---------------------------------------------------------------- order ID lists

  /** perm lists each index below n exactly once. */
  predicate IsPermutation(perm: seq<nat>, n: nat) {
    |perm| == n && (forall i :: 0 <= i < n ==> perm[i] < n) && (forall k :: 0 <= k < n ==> k in perm)
    && forall i, j :: 0 <= i < j < n ==> perm[i] != perm[j]
  }

  /** OrderIDGenerator(count): the IDs 1..count in the order random.shuffle leaves them, given as `perm`. */
  function OrderIDGenerator(count: int, perm: seq<nat>): (r: seq<int>)
    requires IsPermutation(perm, Max0(count))
    ensures |r| == Max0(count)
    ensures forall x :: x in r <==> 1 <= x <= count
    ensures forall i, j :: 0 <= i < j < |r| ==> r[i] != r[j]
  {
    var ids := IDGenerator(count);
    var r := seq(Max0(count), i requires 0 <= i < Max0(count) => ids[perm[i]]);
    assert forall x :: 1 <= x <= count ==> x in r by {
      forall x | 1 <= x <= count
        ensures x in r
      {
        assert x - 1 in perm;
        var i :| 0 <= i < |perm| && perm[i] == x - 1;
        assert r[i] == x;
      }
    }
    r
  }

  /**
   * OrdersIDGenerator(): the IDs 1..OrdersCount followed by
   * OrderCount - OrdersCount more drawn from them, so every order appears
   * and every entry is an order.
   */
  function OrdersIDGenerator(gen: Counts, picks: nat -> nat): (r: Result<seq<int>, GenError>)
    ensures gen.orderCount.None? ==> r == Err(AttributeError("OrderCount"))
    ensures gen.orderCount.Some? ==>
      var extra := gen.orderCount.value - gen.ordersCount;
      && (r.Err? <==> extra > 0 && gen.ordersCount <= 0)
      && (r.Ok? ==> |r.value| == Max0(gen.ordersCount) + Max0(extra))
      && (r.Ok? ==> r.value[..Max0(gen.ordersCount)] == IDGenerator(gen.ordersCount))
      && (r.Ok? ==> forall x :: x in r.value <==> 1 <= x <= gen.ordersCount)
  {
    if gen.orderCount.None? then Err(AttributeError("OrderCount"))
    else
      var ids := IDGenerator(gen.ordersCount);
      var more := Choices(ids, gen.orderCount.value - gen.ordersCount, picks);
      if more.Err? then Err(more.error)
      else
        Ok(ids + more.value)
  }

  // ---------------------------------------------------------------- Data_Generator

  /** Data_Generator(): every table's records, each generator called with its defaults. */
  method DataGeneratorAll(gen: Counts, menuNames: nat -> Stream, prices: nat -> nat, counts: nat -> nat,
                          menuPicks: nat -> nat, dates: nat -> Stream, baristaPicks: nat -> nat, guestPicks: nat -> nat,
                          orderPicks: nat -> nat, names: nat -> Stream, surnames: nat -> Stream, midnames: nat -> Stream,
                          hours: nat -> nat, guestNames: nat -> Stream, guestSurnames: nat -> Stream,
                          guestMidnames: nat -> Stream, phones: nat -> Stream)
    returns (r: Result<(seq<Menu>, seq<Order>, seq<OrdersHasOrder>, seq<Orders>, seq<Barista>, seq<Guest>), GenError>)
    ensures r.Ok? ==> r.value.0 == MenuGenerator(gen, None, menuNames, prices)
    ensures r.Ok? ==> OrderGenerator(gen, None, counts, menuPicks) == Ok(r.value.1)
    ensures r.Ok? ==> OrdersGenerator(gen, None, dates, baristaPicks, guestPicks) == Ok(r.value.3)
    ensures r.Ok? <==>
      && OrderGenerator(gen, None, counts, menuPicks).Ok?
      && OrdersGenerator(gen, None, dates, baristaPicks, guestPicks).Ok?
      && OrdersHasOrderGenerator(gen, None, None, orderPicks).Ok?
    ensures r.Ok? ==> gen.orderCount.Some? && gen.orderCount.value <= 0 && r.value.2 == []
    ensures r.Ok? ==> |r.value.4| == Max0(gen.baristaCount) && forall i :: 0 <= i < |r.value.4| ==>
      && r.value.4[i].id == VInt(i + 1)
      && r.value.4[i].fullName == FullName(surnames(i), names(i), midnames(i))
      && r.value.4[i].workTime.VInt? && 80 <= r.value.4[i].workTime.i <= 272 && (r.value.4[i].workTime.i - 80) % 8 == 0
    ensures r.Ok? ==> |r.value.5| == Max0(gen.guestCount) && forall i :: 0 <= i < |r.value.5| ==>
      && r.value.5[i].id == VInt(i + 1)
      && r.value.5[i].fullName == FullName(guestSurnames(i), guestNames(i), guestMidnames(i))
      && r.value.5[i].contactNumber == Phone(phones(i))
  {
    var order := OrderGenerator(gen, None, counts, menuPicks);
    if order.Err? {
      return Err(order.error);
    }
    var orders := OrdersGenerator(gen, None, dates, baristaPicks, guestPicks);
    if orders.Err? {
      return Err(orders.error);
    }
    var links := OrdersHasOrderGenerator(gen, None, None, orderPicks);
    if links.Err? {
      return Err(links.error);
    }
    var menu := MenuGenerator(gen, None, menuNames, prices);
    var baristas := BaristaGenerator(gen, None, names, surnames, midnames, hours);
    var guests := GuestGenerator(gen, None, guestNames, guestSurnames, guestMidnames, phones);
    return Ok((menu, order.value, links.value, orders.value, baristas, guests));
  }

  /**
   * So Data_Generator fails for every generator built without OrderCount
   * for at least one guest: its default OrderCount is positive, and the
   * links it asks for have no existing orders to draw from.
   */
  lemma DefaultOrderCountPositive(g: int)
    requires g >= 1
    ensures DefaultOrderCount(g) > g
  {
  }
}
