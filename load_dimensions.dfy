/**
 * The dimension transformer (`DimensionLoader`). Each load is one SQL batch,
 * `TRUNCATE marts.dim_x CASCADE; INSERT INTO marts.dim_x SELECT DISTINCT ...
 * FROM staging.y`: the row derivations are the functions below, the batches
 * the transitions `WithDim...` and the methods that apply them.
 *
 * `CURRENT_DATE - INTERVAL '1 year'`, `CURRENT_DATE - INTERVAL '6 months'` and
 * `CURRENT_TIMESTAMP` are parameters.
 */
module LoadDimensions {
  import opened Relational
  import opened Calendar
  import opened Schema
  import CsvToPostgres

  /** The two cut-off dates the segment CASE compares against. */
  datatype Cutoffs = Cutoffs(oneYearAgo: CalendarDate, sixMonthsAgo: CalendarDate)

  /** The clock readings of one `load_all_dimensions`. */
  datatype DimensionClock = DimensionClock(cutoffs: Cutoffs, customersAt: Timestamp, productsAt: Timestamp)

  // ---------------------------------------------------------------------------
  // dim_customers
  // ---------------------------------------------------------------------------

  /**
   * The CASE of the customer load: the first WHEN that holds wins, and a
   * comparison with a NULL registration date is not true, so NULL gives 'New'.
   */
  function CustomerSegment(registration: Option<CalendarDate>, cut: Cutoffs): (g: Segment)
    ensures g == Loyal <==> registration.Some? && Before(registration.value, cut.oneYearAgo)
    ensures g == Regular <==>
      registration.Some? && !Before(registration.value, cut.oneYearAgo) && Before(registration.value, cut.sixMonthsAgo)
    ensures g == New <==>
      registration.None? || (!Before(registration.value, cut.oneYearAgo) && !Before(registration.value, cut.sixMonthsAgo))
  {
    if registration.Some? && Before(registration.value, cut.oneYearAgo) then Loyal
    else if registration.Some? && Before(registration.value, cut.sixMonthsAgo) then Regular
    else New
  }

  function Rank(s: Segment): nat {
    match s
    case New => 0
    case Regular => 1
    case Loyal => 2
  }

  /** Both cut-offs are strict: a customer registered exactly on a cut-off date is not in the older segment. */
  lemma SegmentCutoffsAreStrict(cut: Cutoffs)
    requires Before(cut.oneYearAgo, cut.sixMonthsAgo)
    ensures CustomerSegment(Some(cut.oneYearAgo), cut) == Regular
    ensures CustomerSegment(Some(cut.sixMonthsAgo), cut) == New
    ensures CustomerSegment(None, cut) == New
  {
  }

  /** With the cut-offs in calendar order, an earlier registration never gives a younger segment. */
  lemma SegmentMonotone(a: CalendarDate, b: CalendarDate, cut: Cutoffs)
    requires !Before(cut.sixMonthsAgo, cut.oneYearAgo)
    requires !Before(b, a)
    ensures Rank(CustomerSegment(Some(a), cut)) >= Rank(CustomerSegment(Some(b), cut))
  {
  }

  /** `first_name || ' ' || last_name`: NULL when either part is NULL. */
  function FullName(first: Option<string>, last: Option<string>): (n: Option<string>)
    ensures n.Some? <==> first.Some? && last.Some?
    ensures n.Some? ==> n.value == first.value + [' '] + last.value
  {
    if first.Some? && last.Some? then Some(first.value + " " + last.value) else None
  }

  /**
   * The full name is present exactly when both parts are, and then it is the
   * first name, one space and the last name, so both parts can be read back.
   */
  lemma FullNameParts(first: Option<string>, last: Option<string>)
    ensures FullName(first, last).Some? <==> first.Some? && last.Some?
    ensures FullName(first, last).Some? ==>
      var n := FullName(first, last).value;
      && |n| == |first.value| + 1 + |last.value|
      && n[..|first.value|] == first.value && n[|first.value|] == ' '
      && n[|first.value| + 1..] == last.value
  {
    if first.Some? && last.Some? {
      var n := first.value + " " + last.value;
      assert n[..|first.value|] == first.value;
      assert n[|first.value| + 1..] == last.value;
    }
  }

  /** The SELECT list of the customer load for one staging row. */
  function SelectCustomer(c: StagedCustomer, cut: Cutoffs, now: Timestamp): (r: CustomerDim)
    ensures r.customerId == c.customerId && r.firstName == c.firstName && r.lastName == c.lastName
    ensures r.email == c.email && r.country == c.country && r.registrationDate == c.registrationDate
    ensures r.fullName == FullName(c.firstName, c.lastName)
    ensures r.fullName.Some? <==> c.firstName.Some? && c.lastName.Some?
    ensures r.customerSegment == CustomerSegment(c.registrationDate, cut)
    ensures r.customerSegment == Loyal <==> c.registrationDate.Some? && Before(c.registrationDate.value, cut.oneYearAgo)
    ensures r.isActive && r.isCurrent && r.validFrom == now
  {
    CustomerDim(c.customerId, c.firstName, c.lastName, FullName(c.firstName, c.lastName), c.email,
                c.country, c.registrationDate, CustomerSegment(c.registrationDate, cut), true, now, true)
  }

  /** `SELECT DISTINCT ... FROM staging.customers`. */
  function SelectCustomers(staged: seq<StagedCustomer>, cut: Cutoffs, now: Timestamp): (r: seq<CustomerDim>)
    ensures forall x :: x in r <==> exists j :: 0 <= j < |staged| && x == SelectCustomer(staged[j], cut, now)
    ensures NoDuplicates(r)
  {
    var projected := seq(|staged|, j requires 0 <= j < |staged| => SelectCustomer(staged[j], cut, now));
    assert forall j :: 0 <= j < |staged| ==> projected[j] == SelectCustomer(staged[j], cut, now);
    Distinct(projected)
  }

  /** `dim_customers` is empty exactly when `staging.customers` is. */
  lemma SelectCustomersNonEmpty(staged: seq<StagedCustomer>, cut: Cutoffs, now: Timestamp)
    ensures |SelectCustomers(staged, cut, now)| > 0 <==> |staged| > 0
  {
    var r := SelectCustomers(staged, cut, now);
    if |staged| > 0 {
      assert SelectCustomer(staged[0], cut, now) in r;
    }
    if |r| > 0 {
      assert r[0] in r;
    }
  }

  /**
   * `load_dim_customers` as a transition: `dim_customers` is rebuilt from
   * staging with fresh keys, and the CASCADE empties both fact tables.
   */
  function WithDimCustomers(s: State, cut: Cutoffs, now: Timestamp): (t: State)
    ensures Rows(t.dimCustomers) == SelectCustomers(s.customers, cut, now)
    ensures t.factOrders == [] && t.factOrderItems == []
    ensures t.customerKeySeq == s.customerKeySeq + |t.dimCustomers|
  {
    var rows := SelectCustomers(s.customers, cut, now);
    s.(dimCustomers := AssignKeys(rows, s.customerKeySeq),
       customerKeySeq := s.customerKeySeq + |rows|,
       factOrders := [], factOrderItems := [])
  }

  /**
   * After the load no row of the old `dim_customers` survives: every key of
   * the rebuilt table is fresh.
   */
  lemma DimCustomersReplaced(s: State, cut: Cutoffs, now: Timestamp)
    requires Consistent(s)
    ensures var t := WithDimCustomers(s, cut, now).dimCustomers;
      forall i, j :: 0 <= i < |t| && 0 <= j < |s.dimCustomers| ==> t[i] != s.dimCustomers[j]
  {
    var t := WithDimCustomers(s, cut, now).dimCustomers;
    forall i, j | 0 <= i < |t| && 0 <= j < |s.dimCustomers| ensures t[i] != s.dimCustomers[j] {
      assert s.dimCustomers[j].key < s.customerKeySeq <= t[i].key;
    }
  }

  /**
   * Every row of the rebuilt `dim_customers` is the SELECT list of some
   * staging row, with the load's `valid_from` and `is_active` and
   * `is_current` true.
   */
  lemma DimCustomersFromStaging(s: State, cut: Cutoffs, now: Timestamp)
    ensures var t := WithDimCustomers(s, cut, now).dimCustomers;
      forall i :: 0 <= i < |t| ==>
        && (exists j :: 0 <= j < |s.customers| && t[i].row == SelectCustomer(s.customers[j], cut, now))
        && t[i].row.isActive && t[i].row.isCurrent && t[i].row.validFrom == now
  {
    var rows := SelectCustomers(s.customers, cut, now);
    var t := AssignKeys(rows, s.customerKeySeq);
    assert WithDimCustomers(s, cut, now).dimCustomers == t;
    forall i | 0 <= i < |t|
      ensures exists j :: 0 <= j < |s.customers| && t[i].row == SelectCustomer(s.customers[j], cut, now)
      ensures t[i].row.isActive && t[i].row.isCurrent && t[i].row.validFrom == now
    {
      assert t[i].row == rows[i] && rows[i] in rows;
      var j :| 0 <= j < |s.customers| && rows[i] == SelectCustomer(s.customers[j], cut, now);
    }
  }

  /** Every staging row is represented in the rebuilt `dim_customers`. */
  lemma DimCustomersCoverStaging(s: State, cut: Cutoffs, now: Timestamp)
    ensures var t := WithDimCustomers(s, cut, now).dimCustomers;
      forall j :: 0 <= j < |s.customers| ==> exists i :: 0 <= i < |t| && t[i].row == SelectCustomer(s.customers[j], cut, now)
  {
    var rows := SelectCustomers(s.customers, cut, now);
    var t := AssignKeys(rows, s.customerKeySeq);
    assert WithDimCustomers(s, cut, now).dimCustomers == t;
    forall j | 0 <= j < |s.customers| ensures exists i :: 0 <= i < |t| && t[i].row == SelectCustomer(s.customers[j], cut, now) {
      assert SelectCustomer(s.customers[j], cut, now) in rows;
      var i :| 0 <= i < |rows| && rows[i] == SelectCustomer(s.customers[j], cut, now);
      assert t[i].row == rows[i];
    }
  }

  /**
   * `DISTINCT` only collapses rows equal in every selected column: appending
   * rows whose CSV content is already staged (as a second append of the same
   * file does) leaves the derived rows, and so the `dim_customers` count, unchanged.
   */
  lemma ReappendedCustomersCollapse(staged: seq<StagedCustomer>, rows: seq<CsvToPostgres.CustomerCsv>,
                                    at: Timestamp, file: string, cut: Cutoffs, now: Timestamp)
    requires forall i :: 0 <= i < |rows| ==> exists j :: 0 <= j < |staged| && CsvToPostgres.CustomerContent(staged[j]) == rows[i]
    ensures SelectCustomers(staged + CsvToPostgres.StampCustomers(rows, at, file), cut, now) == SelectCustomers(staged, cut, now)
  {
    var added := CsvToPostgres.StampCustomers(rows, at, file);
    var all := staged + added;
    var p := seq(|staged|, j requires 0 <= j < |staged| => SelectCustomer(staged[j], cut, now));
    var q := seq(|added|, j requires 0 <= j < |added| => SelectCustomer(added[j], cut, now));
    var pq := seq(|all|, j requires 0 <= j < |all| => SelectCustomer(all[j], cut, now));
    assert pq == p + q;
    forall i | 0 <= i < |q| ensures q[i] in p {
      var j :| 0 <= j < |staged| && CsvToPostgres.CustomerContent(staged[j]) == rows[i];
      assert q[i] == p[j];
    }
    DistinctAbsorbs(p, q);
  }

  /**
   * Two staging rows with the same `customer_id` but different attributes
   * both reach `dim_customers`: the natural key is not deduplicated.
   */
  lemma DuplicateCustomerIdsSurvive(staged: seq<StagedCustomer>, cut: Cutoffs, now: Timestamp, i: nat, j: nat)
    requires i < |staged| && j < |staged|
    requires staged[i].customerId == staged[j].customerId
    requires SelectCustomer(staged[i], cut, now) != SelectCustomer(staged[j], cut, now)
    ensures var r := SelectCustomers(staged, cut, now);
      exists a, b :: 0 <= a < |r| && 0 <= b < |r| && a != b && r[a].customerId == r[b].customerId == staged[i].customerId
  {
    var r := SelectCustomers(staged, cut, now);
    assert SelectCustomer(staged[i], cut, now) in r && SelectCustomer(staged[j], cut, now) in r;
    var a :| 0 <= a < |r| && r[a] == SelectCustomer(staged[i], cut, now);
    var b :| 0 <= b < |r| && r[b] == SelectCustomer(staged[j], cut, now);
    assert a != b;
  }

  // ---------------------------------------------------------------------------
  // dim_products
  // ---------------------------------------------------------------------------

  /** `ROUND(x::numeric, 2)`: to two decimals, halves rounded away from zero. */
  function Round2(x: real): (r: real)
    ensures (r * 100.0).Floor as real == r * 100.0
    ensures x >= 0.0 ==> r >= 0.0
    ensures x <= 0.0 ==> r <= 0.0
    ensures -0.005 <= r - x <= 0.005
  {
    var n := if x >= 0.0 then (x * 100.0 + 0.5).Floor else -(((-x) * 100.0 + 0.5).Floor);
    assert (n as real / 100.0) * 100.0 == n as real;
    n as real / 100.0
  }

  /** A positive half-way value rounds up, away from zero, never to the even neighbour. */
  lemma Round2HalfUp(k: nat)
    ensures Round2((k as real + 0.5) / 100.0) == (k + 1) as real / 100.0
  {
    var y := k as real + 0.5;
    Hundredths(y);
    assert y / 100.0 >= 0.0;
    assert ((k + 1) as real).Floor == k + 1;
  }

  /** A negative half-way value rounds down, away from zero. */
  lemma Round2HalfDown(k: nat)
    ensures Round2(-(k as real + 0.5) / 100.0) == -((k + 1) as real / 100.0)
  {
    var y := k as real + 0.5;
    Hundredths(y);
    assert -(-y / 100.0) == y / 100.0;
    assert -y / 100.0 < 0.0;
    assert ((k + 1) as real).Floor == k + 1;
  }

  lemma Hundredths(y: real)
    ensures (y / 100.0) * 100.0 == y
    ensures (-y / 100.0) == -(y / 100.0)
  {
  }

  /** Rounding moves a value by at most half a hundredth. */
  lemma Round2Error(x: real)
    ensures -0.005 <= Round2(x) - x <= 0.005
  {
  }

  lemma Round2Monotone(x: real, y: real)
    requires x <= y
    ensures Round2(x) <= Round2(y)
  {
    if 0.0 <= x {
      assert (x * 100.0 + 0.5).Floor <= (y * 100.0 + 0.5).Floor;
    } else if y < 0.0 {
      assert ((-y) * 100.0 + 0.5).Floor <= ((-x) * 100.0 + 0.5).Floor;
    }
  }

  /** A value that already has two decimals is left as it is. */
  lemma Round2Exact(n: int)
    ensures Round2(n as real / 100.0) == n as real / 100.0
  {
    var x := n as real / 100.0;
    assert x * 100.0 == n as real;
    if n >= 0 {
      assert (x * 100.0 + 0.5).Floor == n;
    } else {
      assert (-x) * 100.0 == (-n) as real;
      assert ((-x) * 100.0 + 0.5).Floor == -n;
    }
  }

  /** `ROUND((((price - cost) / NULLIF(price, 0)) * 100)::numeric, 2)`. */
  function MarginPercent(price: Cents, cost: Cents): (m: Option<real>)
    ensures m.None? <==> price == 0
  {
    if price == 0 then None else Some(Round2((price - cost) as real / price as real * 100.0))
  }

  /**
   * The margin is the exact percentage within half a hundredth, and it lies
   * between 0 and 100 whenever the cost is between 0 and the (positive) price.
   */
  lemma MarginPercentBounds(price: Cents, cost: Cents)
    requires price != 0
    ensures var exact := (price - cost) as real / price as real * 100.0;
      -0.005 <= MarginPercent(price, cost).value - exact <= 0.005
    ensures 0 < price && 0 <= cost <= price ==> 0.0 <= MarginPercent(price, cost).value <= 100.0
  {
    var exact := (price - cost) as real / price as real * 100.0;
    Round2Error(exact);
    if 0 < price && 0 <= cost <= price {
      UnitFraction((price - cost) as real, price as real);
      Round2Monotone(0.0, exact);
      Round2Monotone(exact, 100.0);
      Round2Exact(0);
      Round2Exact(10000);
    }
  }

  lemma UnitFraction(n: real, d: real)
    requires 0.0 < d && 0.0 <= n <= d
    ensures 0.0 <= n / d <= 1.0
  {
    var x := n / d;
    assert x * d == n;
    assert (1.0 - x) * d == d - n;
  }

  /** The SELECT list of the product load for one staging row: price and cost are copied unchanged. */
  function SelectProduct(p: StagedProduct, now: Timestamp): (r: ProductDim)
    ensures r.productId == p.productId && r.productName == p.productName && r.category == p.category
    ensures r.price == p.price && r.cost == p.cost
    ensures r.marginPercent == MarginPercent(p.price, p.cost)
    ensures r.marginPercent.None? <==> p.price == 0
    ensures r.validFrom == now && r.isCurrent
  {
    ProductDim(p.productId, p.productName, p.category, p.price, p.cost, MarginPercent(p.price, p.cost), now, true)
  }

  /** `SELECT DISTINCT ... FROM staging.products`. */
  function SelectProducts(staged: seq<StagedProduct>, now: Timestamp): (r: seq<ProductDim>)
    ensures forall x :: x in r <==> exists j :: 0 <= j < |staged| && x == SelectProduct(staged[j], now)
    ensures NoDuplicates(r)
  {
    var projected := seq(|staged|, j requires 0 <= j < |staged| => SelectProduct(staged[j], now));
    assert forall j :: 0 <= j < |staged| ==> projected[j] == SelectProduct(staged[j], now);
    Distinct(projected)
  }

  /** `load_dim_products` as a transition; the CASCADE empties `fact_order_items`. */
  function WithDimProducts(s: State, now: Timestamp): (t: State)
    ensures Rows(t.dimProducts) == SelectProducts(s.products, now)
    ensures t.factOrderItems == []
    ensures t.productKeySeq == s.productKeySeq + |t.dimProducts|
  {
    var rows := SelectProducts(s.products, now);
    s.(dimProducts := AssignKeys(rows, s.productKeySeq),
       productKeySeq := s.productKeySeq + |rows|,
       factOrderItems := [])
  }

  /**
   * Every `dim_products` row carries the price and cost of a staging row
   * unchanged, and its margin is NULL exactly when that price is 0.
   */
  lemma DimProductsCopyPrices(s: State, now: Timestamp)
    ensures var t := WithDimProducts(s, now).dimProducts;
      forall i :: 0 <= i < |t| ==> exists j :: (0 <= j < |s.products|
        && t[i].row.productId == s.products[j].productId
        && t[i].row.price == s.products[j].price && t[i].row.cost == s.products[j].cost
        && t[i].row.marginPercent == MarginPercent(s.products[j].price, s.products[j].cost)
        && (t[i].row.marginPercent.None? <==> t[i].row.price == 0))
  {
    var rows := SelectProducts(s.products, now);
    var t := AssignKeys(rows, s.productKeySeq);
    forall i | 0 <= i < |t|
      ensures exists j :: (0 <= j < |s.products|
        && t[i].row.productId == s.products[j].productId
        && t[i].row.price == s.products[j].price && t[i].row.cost == s.products[j].cost
        && t[i].row.marginPercent == MarginPercent(s.products[j].price, s.products[j].cost)
        && (t[i].row.marginPercent.None? <==> t[i].row.price == 0))
    {
      assert t[i].row == rows[i] && rows[i] in rows;
      var j :| 0 <= j < |s.products| && rows[i] == SelectProduct(s.products[j], now);
    }
  }

  // ---------------------------------------------------------------------------
  // dim_date
  // ---------------------------------------------------------------------------

  /** The SELECT list of the date load for one order date. */
  function DateRow(d: CalendarDate): (r: DateDim)
    ensures r.date == d && r.dateKey == DateKey(d)
    ensures r.year == d.year && r.quarter == Quarter(d) && r.month == d.month && r.dayOfMonth == d.day
    ensures r.dayOfWeek == DayOfWeek(d)
    ensures r.isWeekend <==> r.dayOfWeek == 0 || r.dayOfWeek == 6
    ensures !r.isHoliday
  {
    DateDim(DateKey(d), d, d.year, Quarter(d), d.month, d.day, DayOfWeek(d), IsWeekend(d), false)
  }

  /** `SELECT DISTINCT ... FROM staging.orders` (the ORDER BY only orders the insertion). */
  function SelectDates(orders: seq<StagedOrder>): (r: seq<DateDim>)
    ensures forall x :: x in r <==> exists j :: 0 <= j < |orders| && x == DateRow(orders[j].orderDate.date)
    ensures NoDuplicates(r)
  {
    var projected := seq(|orders|, j requires 0 <= j < |orders| => DateRow(orders[j].orderDate.date));
    assert forall j :: 0 <= j < |orders| ==> projected[j] == DateRow(orders[j].orderDate.date);
    Distinct(projected)
  }

  /** The calendar dates of the staged orders. */
  function OrderDates(orders: seq<StagedOrder>): set<CalendarDate> {
    set o | o in orders :: o.orderDate.date
  }

  /** `load_dim_date` as a transition; the CASCADE empties both fact tables. */
  function WithDimDate(s: State): (t: State)
    ensures t.dimDate == SelectDates(s.orders)
    ensures t.factOrders == [] && t.factOrderItems == []
  {
    s.(dimDate := SelectDates(s.orders), factOrders := [], factOrderItems := [])
  }

  /** Every order date has a row in `dim_date`. */
  lemma DimDateCoversOrderDates(orders: seq<StagedOrder>)
    ensures var t := SelectDates(orders);
      forall j :: 0 <= j < |orders| ==> exists i :: 0 <= i < |t| && t[i].date == orders[j].orderDate.date
  {
    var t := SelectDates(orders);
    forall j | 0 <= j < |orders| ensures exists i :: 0 <= i < |t| && t[i].date == orders[j].orderDate.date {
      assert DateRow(orders[j].orderDate.date) in t;
      var i :| 0 <= i < |t| && t[i] == DateRow(orders[j].orderDate.date);
    }
  }

  /** Every row of `dim_date` is the row of an order date. */
  lemma DimDateRowsFromOrders(orders: seq<StagedOrder>)
    ensures var t := SelectDates(orders);
      forall i :: 0 <= i < |t| ==> t[i].date in OrderDates(orders) && t[i] == DateRow(t[i].date)
  {
    var t := SelectDates(orders);
    forall i | 0 <= i < |t| ensures t[i].date in OrderDates(orders) && t[i] == DateRow(t[i].date) {
      assert t[i] in t;
      var j :| 0 <= j < |orders| && t[i] == DateRow(orders[j].orderDate.date);
      assert orders[j] in orders;
    }
  }

  /** No two rows of `dim_date` share a date, nor a `date_key`. */
  lemma DimDateKeysUnique(orders: seq<StagedOrder>)
    ensures var t := SelectDates(orders);
      && (forall i, k :: 0 <= i < |t| && 0 <= k < |t| && t[i].date == t[k].date ==> i == k)
      && (forall i, k :: 0 <= i < k < |t| ==> t[i].dateKey != t[k].dateKey)
  {
    var t := SelectDates(orders);
    forall i, k | 0 <= i < |t| && 0 <= k < |t| && t[i].date == t[k].date ensures i == k {
      assert t[i] in t && t[k] in t;
      var ji :| 0 <= ji < |orders| && t[i] == DateRow(orders[ji].orderDate.date);
      var jk :| 0 <= jk < |orders| && t[k] == DateRow(orders[jk].orderDate.date);
      assert t[i] == t[k];
    }
    forall i, k | 0 <= i < k < |t| ensures t[i].dateKey != t[k].dateKey {
      assert t[i] in t && t[k] in t;
      var ji :| 0 <= ji < |orders| && t[i] == DateRow(orders[ji].orderDate.date);
      var jk :| 0 <= jk < |orders| && t[k] == DateRow(orders[jk].orderDate.date);
      if t[i].dateKey == t[k].dateKey {
        DateKeyInjective(t[i].date, t[k].date);
      }
    }
  }

  /** `dim_date` has exactly as many rows as there are distinct order dates. */
  lemma DimDateCount(orders: seq<StagedOrder>)
    ensures |SelectDates(orders)| == |OrderDates(orders)|
  {
    var t := SelectDates(orders);
    DimDateKeysUnique(orders);
    var dates: seq<CalendarDate> := seq(|t|, i requires 0 <= i < |t| => t[i].date);
    assert NoDuplicates(dates);
    NoDuplicatesCardinality(dates);
    DimDateDates(orders, dates);
  }

  lemma DimDateDates(orders: seq<StagedOrder>, dates: seq<CalendarDate>)
    requires |dates| == |SelectDates(orders)|
    requires forall i :: 0 <= i < |dates| ==> dates[i] == SelectDates(orders)[i].date
    ensures (set x | x in dates) == OrderDates(orders)
  {
    var t := SelectDates(orders);
    DimDateCoversOrderDates(orders);
    DimDateRowsFromOrders(orders);
    forall d | d in OrderDates(orders) ensures d in dates {
      var o :| o in orders && o.orderDate.date == d;
      var j :| 0 <= j < |orders| && orders[j] == o;
      var i :| 0 <= i < |t| && t[i].date == d;
      assert dates[i] == d;
    }
  }

  // ---------------------------------------------------------------------------
  // consistency
  // ---------------------------------------------------------------------------

  lemma DimensionLoadsKeepConsistency(s: State, clock: DimensionClock)
    requires Consistent(s)
    ensures Consistent(WithDimCustomers(s, clock.cutoffs, clock.customersAt))
    ensures Consistent(WithDimProducts(s, clock.productsAt))
    ensures Consistent(WithDimDate(s))
  {
    DimProductsKeepConsistency(s, clock.productsAt);
  }

  lemma DimProductsKeepConsistency(s: State, now: Timestamp)
    requires Consistent(s)
    ensures Consistent(WithDimProducts(s, now))
  {
    var p := WithDimProducts(s, now);
    assert CustomerKeysResolve(p.factOrders, p.dimCustomers);
  }

  // ---------------------------------------------------------------------------
  // the loads
  // ---------------------------------------------------------------------------

  /** `load_dim_customers`: one batch, then the count of the rebuilt table. */
  method LoadDimCustomers(w: Warehouse, cut: Cutoffs, now: Timestamp, fails: bool, unreadable: set<Table>)
    returns (r: Result<nat>)
    requires w.Valid()
    modifies w
    ensures w.Valid()
    ensures fails ==> r == Raised(BuildDimCustomers) && w.Snapshot() == old(w.Snapshot())
    ensures !fails ==> w.Snapshot() == WithDimCustomers(old(w.Snapshot()), cut, now)
    ensures !fails ==> r == Ok(CountOrZero(w.Snapshot(), DimCustomers, unreadable))
  {
    if fails {
      return Raised(BuildDimCustomers);
    }
    ghost var before := w.Snapshot();
    var rows := SelectCustomers(w.customers, cut, now);
    w.factOrders, w.factOrderItems := [], [];
    w.dimCustomers := AssignKeys(rows, w.customerKeySeq);
    w.customerKeySeq := w.customerKeySeq + |rows|;
    assert w.Snapshot() == WithDimCustomers(before, cut, now);
    var n := w.TableCount(DimCustomers, unreadable);
    r := Ok(n);
  }

  /** `load_dim_products`: one batch, then the count of the rebuilt table. */
  method LoadDimProducts(w: Warehouse, now: Timestamp, fails: bool, unreadable: set<Table>)
    returns (r: Result<nat>)
    requires w.Valid()
    modifies w
    ensures w.Valid()
    ensures fails ==> r == Raised(BuildDimProducts) && w.Snapshot() == old(w.Snapshot())
    ensures !fails ==> w.Snapshot() == WithDimProducts(old(w.Snapshot()), now)
    ensures !fails ==> r == Ok(CountOrZero(w.Snapshot(), DimProducts, unreadable))
  {
    if fails {
      return Raised(BuildDimProducts);
    }
    ghost var before := w.Snapshot();
    DimProductsKeepConsistency(before, now);
    var rows := SelectProducts(w.products, now);
    w.factOrderItems := [];
    w.dimProducts := AssignKeys(rows, w.productKeySeq);
    w.productKeySeq := w.productKeySeq + |rows|;
    assert w.Snapshot() == WithDimProducts(before, now);
    var n := w.TableCount(DimProducts, unreadable);
    r := Ok(n);
  }

  /** `load_dim_date`: one batch, then the count of the rebuilt table. */
  method LoadDimDate(w: Warehouse, fails: bool, unreadable: set<Table>)
    returns (r: Result<nat>)
    requires w.Valid()
    modifies w
    ensures w.Valid()
    ensures fails ==> r == Raised(BuildDimDate) && w.Snapshot() == old(w.Snapshot())
    ensures !fails ==> w.Snapshot() == WithDimDate(old(w.Snapshot()))
    ensures !fails ==> r == Ok(CountOrZero(w.Snapshot(), DimDate, unreadable))
  {
    if fails {
      return Raised(BuildDimDate);
    }
    ghost var before := w.Snapshot();
    w.factOrders, w.factOrderItems := [], [];
    w.dimDate := SelectDates(w.orders);
    assert w.Snapshot() == WithDimDate(before);
    var n := w.TableCount(DimDate, unreadable);
    r := Ok(n);
  }

  // ---------------------------------------------------------------------------
  // load_all_dimensions
  // ---------------------------------------------------------------------------

  /** The database after the first `n` loads of `load_all_dimensions` succeeded. */
  function DimensionLoads(s: State, n: nat, clock: DimensionClock): State
    requires n <= 3
  {
    if n == 0 then s
    else if n == 1 then WithDimCustomers(s, clock.cutoffs, clock.customersAt)
    else if n == 2 then WithDimProducts(DimensionLoads(s, 1, clock), clock.productsAt)
    else WithDimDate(DimensionLoads(s, 2, clock))
  }

  function DimensionStep(k: nat): Step
    requires k < 3
  {
    [BuildDimCustomers, BuildDimProducts, BuildDimDate][k]
  }

  /** How many dimension loads run to completion: those before the first one that raises. */
  function CompletedDimensionLoads(failing: set<Step>): (n: nat)
    ensures n <= 3
    ensures n > 0 <==> BuildDimCustomers !in failing
    ensures n > 1 <==> BuildDimCustomers !in failing && BuildDimProducts !in failing
    ensures n > 2 <==> BuildDimCustomers !in failing && BuildDimProducts !in failing && BuildDimDate !in failing
  {
    if BuildDimCustomers in failing then 0
    else if BuildDimProducts in failing then 1
    else if BuildDimDate in failing then 2
    else 3
  }

  /** The `results` dictionary of a `load_all_dimensions` in which every load succeeded. */
  function DimensionResults(s: State, unreadable: set<Table>): seq<Entry> {
    [Entry("dim_customers", CountOrZero(s, DimCustomers, unreadable))]
    + [Entry("dim_products", CountOrZero(s, DimProducts, unreadable))]
    + [Entry("dim_date", CountOrZero(s, DimDate, unreadable))]
  }

  /**
   * After all three loads every dimension is a function of staging alone and
   * both fact tables are empty: the facts must be reloaded after the dimensions.
   */
  lemma {:induction false} AllDimensionsLoaded(s: State, clock: DimensionClock)
    ensures var t := DimensionLoads(s, 3, clock);
      && Rows(t.dimCustomers) == SelectCustomers(s.customers, clock.cutoffs, clock.customersAt)
      && Rows(t.dimProducts) == SelectProducts(s.products, clock.productsAt)
      && t.dimDate == SelectDates(s.orders)
      && t.factOrders == [] && t.factOrderItems == []
      && t.customers == s.customers && t.products == s.products
      && t.orders == s.orders && t.orderItems == s.orderItems
  {
    var s1 := WithDimCustomers(s, clock.cutoffs, clock.customersAt);
    var s2 := WithDimProducts(s1, clock.productsAt);
    assert DimensionLoads(s, 2, clock) == s2;
    assert DimensionLoads(s, 3, clock) == WithDimDate(s2);
  }

  /**
   * `load_all_dimensions`: customers, then products, then date. An exception
   * ends it at once (the loads before it stay done); otherwise it returns the
   * three table names with their counts, in that order.
   */
  method LoadAllDimensions(w: Warehouse, clock: DimensionClock, failing: set<Step>, unreadable: set<Table>)
    returns (r: Result<seq<Entry>>)
    requires w.Valid()
    modifies w
    ensures w.Valid()
    ensures w.Snapshot() == DimensionLoads(old(w.Snapshot()), CompletedDimensionLoads(failing), clock)
    ensures CompletedDimensionLoads(failing) < 3 ==> r == Raised(DimensionStep(CompletedDimensionLoads(failing)))
    ensures CompletedDimensionLoads(failing) == 3 ==> r == Ok(DimensionResults(w.Snapshot(), unreadable))
  {
    ghost var s0 := w.Snapshot();
    var c := LoadDimCustomers(w, clock.cutoffs, clock.customersAt, BuildDimCustomers in failing, unreadable);
    if c.Raised? {
      return Raised(c.at);
    }
    var results := [Entry("dim_customers", c.value)];
    assert w.Snapshot() == DimensionLoads(s0, 1, clock);
    var p := LoadDimProducts(w, clock.productsAt, BuildDimProducts in failing, unreadable);
    if p.Raised? {
      return Raised(p.at);
    }
    results := results + [Entry("dim_products", p.value)];
    assert w.Snapshot() == DimensionLoads(s0, 2, clock);
    var d := LoadDimDate(w, BuildDimDate in failing, unreadable);
    if d.Raised? {
      return Raised(d.at);
    }
    results := results + [Entry("dim_date", d.value)];
    assert c.value == CountOrZero(w.Snapshot(), DimCustomers, unreadable);
    assert p.value == CountOrZero(w.Snapshot(), DimProducts, unreadable);
    r := Ok(results);
  }
}
