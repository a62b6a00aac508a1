/**
 * The fact transformer (`FactLoader`).
 *
 * `fact_orders` is a grouped aggregate over the chain of LEFT JOINs
 * orders -> dim_customers, orders -> order_items -> products -> dim_products.
 * The model builds that joined relation explicitly (`JoinedRows`): one
 * `Joined` row per combination the joins produce, carrying the GROUP BY
 * columns and the three values the aggregates sum. `fact_order_items` is the
 * inner join order_items x fact_orders x dim_products (`ItemFacts`).
 */
module LoadFacts {
  import opened Relational
  import opened Calendar
  import opened Schema

  /** The GROUP BY columns of the `fact_orders` query. */
  datatype GroupKey = GroupKey(orderId: int, customerKey: Option<nat>, orderDate: Timestamp, status: string)

  /** What one joined row feeds into the sums: `oi.quantity`, `oi.quantity * oi.unit_price` and `oi.quantity * dp.cost`. */
  datatype Line = Line(quantity: Option<int>, amount: Option<int>, cost: Option<int>)

  /** A row of the joined relation, reduced to the columns the query uses. */
  datatype Joined = Joined(key: GroupKey, line: Line)

  /** The contribution of an order without items: the LEFT JOIN pads every item column with NULL. */
  const NullLine := Line(None, None, None)

  /** The grouping columns of a fact row. */
  function KeyOf(r: FactOrder): GroupKey {
    GroupKey(r.orderId, r.customerKey, r.orderDate, r.status)
  }

  // ---------------------------------------------------------------------------
  // LEFT JOIN marts.dim_customers dc ON o.customer_id = dc.customer_id
  // ---------------------------------------------------------------------------

  /** The keys of the `dim_customers` rows with the given natural key. */
  function CustomerKeys(customerId: int, dimC: seq<Keyed<CustomerDim>>): seq<nat> {
    if dimC == [] then []
    else (if dimC[0].row.customerId == customerId then [dimC[0].key] else []) + CustomerKeys(customerId, dimC[1..])
  }

  lemma {:induction false} CustomerKeysMember(customerId: int, dimC: seq<Keyed<CustomerDim>>, k: nat)
    ensures k in CustomerKeys(customerId, dimC) <==>
      exists d :: 0 <= d < |dimC| && dimC[d].key == k && dimC[d].row.customerId == customerId
  {
    if dimC != [] {
      var rest := dimC[1..];
      CustomerKeysMember(customerId, rest, k);
      if exists d :: 0 <= d < |rest| && rest[d].key == k && rest[d].row.customerId == customerId {
        var d :| 0 <= d < |rest| && rest[d].key == k && rest[d].row.customerId == customerId;
        assert dimC[d + 1] == rest[d];
      }
      if exists d :: 0 <= d < |dimC| && dimC[d].key == k && dimC[d].row.customerId == customerId {
        var d :| 0 <= d < |dimC| && dimC[d].key == k && dimC[d].row.customerId == customerId;
        if d > 0 {
          assert rest[d - 1] == dimC[d];
        }
      }
    }
  }

  lemma {:induction false} CustomerKeysDistinct(customerId: int, dimC: seq<Keyed<CustomerDim>>)
    requires KeysUnique(dimC)
    ensures NoDuplicates(CustomerKeys(customerId, dimC))
  {
    if dimC != [] {
      var rest := dimC[1..];
      forall i, j | 0 <= i < j < |rest| ensures rest[i].key != rest[j].key {
        assert rest[i] == dimC[i + 1] && rest[j] == dimC[j + 1];
      }
      CustomerKeysDistinct(customerId, rest);
      if dimC[0].row.customerId == customerId {
        CustomerKeysMember(customerId, rest, dimC[0].key);
        NoDuplicatesPrepend(dimC[0].key, CustomerKeys(customerId, rest));
      }
    }
  }

  /** The `dc.customer_key` values an order joins with: its matches, or a single NULL. */
  function CustomerMatches(o: StagedOrder, dimC: seq<Keyed<CustomerDim>>): seq<Option<nat>> {
    OrNull(Present(CustomerKeys(o.customerId, dimC)))
  }

  /**
   * An order joins with the customer key `Some(k)` exactly when a
   * `dim_customers` row with key `k` has the order's customer id, and with
   * NULL exactly when no row has it.
   */
  lemma CustomerMatchesMeaning(o: StagedOrder, dimC: seq<Keyed<CustomerDim>>, ck: Option<nat>)
    ensures ck.Some? ==> (ck in CustomerMatches(o, dimC) <==>
      exists d :: 0 <= d < |dimC| && dimC[d].key == ck.value && dimC[d].row.customerId == o.customerId)
    ensures ck.None? ==> (ck in CustomerMatches(o, dimC) <==>
      forall d :: 0 <= d < |dimC| ==> dimC[d].row.customerId != o.customerId)
  {
    var keys := CustomerKeys(o.customerId, dimC);
    if ck.Some? {
      CustomerKeysMember(o.customerId, dimC, ck.value);
      if ck in Present(keys) {
        var a :| 0 <= a < |keys| && Present(keys)[a] == ck;
      }
      if ck.value in keys {
        var a :| 0 <= a < |keys| && keys[a] == ck.value;
        assert Present(keys)[a] == ck;
      }
    } else {
      if keys != [] {
        CustomerKeysMember(o.customerId, dimC, keys[0]);
      }
      if exists d :: 0 <= d < |dimC| && dimC[d].row.customerId == o.customerId {
        var d :| 0 <= d < |dimC| && dimC[d].row.customerId == o.customerId;
        CustomerKeysMember(o.customerId, dimC, dimC[d].key);
      }
    }
  }

  lemma CustomerMatchesDistinct(o: StagedOrder, dimC: seq<Keyed<CustomerDim>>)
    requires KeysUnique(dimC)
    ensures NoDuplicates(CustomerMatches(o, dimC))
  {
    CustomerKeysDistinct(o.customerId, dimC);
  }

  // ---------------------------------------------------------------------------
  // LEFT JOIN staging.order_items / staging.products / marts.dim_products
  // ---------------------------------------------------------------------------

  /** The costs of the `dim_products` rows with the given product id. */
  function DimCosts(productId: int, dimP: seq<Keyed<ProductDim>>): seq<int> {
    if dimP == [] then []
    else (if dimP[0].row.productId == productId then [dimP[0].row.cost] else []) + DimCosts(productId, dimP[1..])
  }

  /**
   * The `dp.cost` values an item joins with through the staging product rows
   * with its product id: for each such row, its `dim_products` matches or a
   * single NULL.
   */
  function ProductJoin(productId: int, products: seq<StagedProduct>, dimP: seq<Keyed<ProductDim>>): seq<Option<int>> {
    if products == [] then []
    else (if products[0].productId == productId then OrNull(Present(DimCosts(productId, dimP))) else [])
         + ProductJoin(productId, products[1..], dimP)
  }

  /** The `dp.cost` values one item joins with: a single NULL when no staging product matches. */
  function ItemCosts(productId: int, products: seq<StagedProduct>, dimP: seq<Keyed<ProductDim>>): seq<Option<int>> {
    OrNull(ProductJoin(productId, products, dimP))
  }

  /** `oi.quantity * dp.cost`: NULL when `dp.cost` is NULL. */
  function Scale(q: int, c: Option<int>): Option<int> {
    if c.Some? then Some(q * c.value) else None
  }

  /** The joined rows of one order item. */
  function ItemLines(oi: StagedOrderItem, products: seq<StagedProduct>, dimP: seq<Keyed<ProductDim>>): seq<Line> {
    var costs := ItemCosts(oi.productId, products, dimP);
    seq(|costs|, i requires 0 <= i < |costs| =>
      Line(Some(oi.quantity), Some(oi.quantity * oi.unitPrice), Scale(oi.quantity, costs[i])))
  }

  /** The joined rows of the items of one order id. */
  function ItemsLines(orderId: int, items: seq<StagedOrderItem>, products: seq<StagedProduct>, dimP: seq<Keyed<ProductDim>>): seq<Line> {
    if items == [] then []
    else (if items[0].orderId == orderId then ItemLines(items[0], products, dimP) else [])
         + ItemsLines(orderId, items[1..], products, dimP)
  }

  /** The item side of one order: its items' rows, or one all-NULL row when it has none. */
  function OrderLines(orderId: int, items: seq<StagedOrderItem>, products: seq<StagedProduct>, dimP: seq<Keyed<ProductDim>>): seq<Line> {
    var ls := ItemsLines(orderId, items, products, dimP);
    if ls == [] then [NullLine] else ls
  }

  // ---------------------------------------------------------------------------
  // the joined relation
  // ---------------------------------------------------------------------------

  function KeyLines(o: StagedOrder, customerKey: Option<nat>, lines: seq<Line>): seq<Joined> {
    seq(|lines|, i requires 0 <= i < |lines| => Joined(GroupKey(o.orderId, customerKey, o.orderDate, o.status), lines[i]))
  }

  /** Every customer key of an order combined with every item row of it. */
  function WithKeys(o: StagedOrder, keys: seq<Option<nat>>, lines: seq<Line>): (r: seq<Joined>)
    ensures keys != [] ==> |r| >= |lines|
  {
    if keys == [] then [] else KeyLines(o, keys[0], lines) + WithKeys(o, keys[1..], lines)
  }

  /** The rows of one order: its customer matches crossed with its item side, so at least one. */
  function JoinOrder(o: StagedOrder, s: State): (r: seq<Joined>)
    ensures |r| >= 1
  {
    WithKeys(o, CustomerMatches(o, s.dimCustomers), OrderLines(o.orderId, s.orderItems, s.products, s.dimProducts))
  }

  function JoinOrders(orders: seq<StagedOrder>, s: State): (r: seq<Joined>)
    ensures |r| >= |orders|
  {
    if orders == [] then [] else JoinOrder(orders[0], s) + JoinOrders(orders[1..], s)
  }

  /**
   * The FROM clause of the `fact_orders` query: `staging.orders` is the left
   * side of every join, so no order is lost.
   */
  function JoinedRows(s: State): (r: seq<Joined>)
    ensures |r| >= |s.orders|
  {
    JoinOrders(s.orders, s)
  }

  lemma {:induction false} JoinOrdersMember(orders: seq<StagedOrder>, s: State, x: Joined)
    ensures x in JoinOrders(orders, s) <==> exists k :: 0 <= k < |orders| && x in JoinOrder(orders[k], s)
  {
    if orders != [] {
      var rest := orders[1..];
      JoinOrdersMember(rest, s, x);
      if exists k :: 0 <= k < |rest| && x in JoinOrder(rest[k], s) {
        var k :| 0 <= k < |rest| && x in JoinOrder(rest[k], s);
        assert orders[k + 1] == rest[k];
      }
      if exists k :: 0 <= k < |orders| && x in JoinOrder(orders[k], s) {
        var k :| 0 <= k < |orders| && x in JoinOrder(orders[k], s);
        if k > 0 {
          assert rest[k - 1] == orders[k];
        }
      }
    }
  }

  lemma {:induction false} WithKeysMember(o: StagedOrder, keys: seq<Option<nat>>, lines: seq<Line>, x: Joined)
    ensures x in WithKeys(o, keys, lines) <==>
      exists a, b :: 0 <= a < |keys| && 0 <= b < |lines| && x == Joined(GroupKey(o.orderId, keys[a], o.orderDate, o.status), lines[b])
  {
    if keys != [] {
      var rest := keys[1..];
      WithKeysMember(o, rest, lines, x);
      var head := KeyLines(o, keys[0], lines);
      if x in head {
        var b :| 0 <= b < |lines| && head[b] == x;
        assert x == Joined(GroupKey(o.orderId, keys[0], o.orderDate, o.status), lines[b]);
      }
      if exists a, b :: 0 <= a < |rest| && 0 <= b < |lines| && x == Joined(GroupKey(o.orderId, rest[a], o.orderDate, o.status), lines[b]) {
        var a, b :| 0 <= a < |rest| && 0 <= b < |lines| && x == Joined(GroupKey(o.orderId, rest[a], o.orderDate, o.status), lines[b]);
        assert keys[a + 1] == rest[a];
      }
      if exists a, b :: 0 <= a < |keys| && 0 <= b < |lines| && x == Joined(GroupKey(o.orderId, keys[a], o.orderDate, o.status), lines[b]) {
        var a, b :| 0 <= a < |keys| && 0 <= b < |lines| && x == Joined(GroupKey(o.orderId, keys[a], o.orderDate, o.status), lines[b]);
        if a == 0 {
          assert head[b] == x;
        } else {
          assert rest[a - 1] == keys[a];
        }
      }
    }
  }

  // ---------------------------------------------------------------------------
  // GROUP BY o.order_id, dc.customer_key, o.order_date, o.status
  // ---------------------------------------------------------------------------

  /** The item rows of one group. */
  function GroupLines(rows: seq<Joined>, g: GroupKey): seq<Line> {
    if rows == [] then []
    else (if rows[0].key == g then [rows[0].line] else []) + GroupLines(rows[1..], g)
  }

  function GroupKeys(rows: seq<Joined>): seq<GroupKey> {
    seq(|rows|, i requires 0 <= i < |rows| => rows[i].key)
  }

  function Quantities(lines: seq<Line>): seq<Option<int>> {
    seq(|lines|, i requires 0 <= i < |lines| => lines[i].quantity)
  }

  function Amounts(lines: seq<Line>): seq<Option<int>> {
    seq(|lines|, i requires 0 <= i < |lines| => lines[i].amount)
  }

  function Costs(lines: seq<Line>): seq<Option<int>> {
    seq(|lines|, i requires 0 <= i < |lines| => lines[i].cost)
  }

  /** `SUM(oi.quantity)`, `SUM(oi.quantity * oi.unit_price)` and `SUM(oi.quantity * dp.cost)` of one group. */
  datatype Sums = Sums(items: Option<int>, amount: Option<int>, cost: Option<int>)

  function SumLines(lines: seq<Line>): Sums {
    Sums(Sum(Quantities(lines)), Sum(Amounts(lines)), Sum(Costs(lines)))
  }

  /** SQL subtraction: NULL when either side is NULL. */
  function SubtractNullable(a: Option<int>, b: Option<int>): (r: Option<int>)
    ensures r.Some? <==> a.Some? && b.Some?
  {
    if a.Some? && b.Some? then Some(a.value - b.value) else None
  }

  /** The SELECT list of the `fact_orders` query for one group. */
  function Aggregate(g: GroupKey, t: Sums): (r: FactOrder)
    ensures KeyOf(r) == g && r.orderDateKey == DateKey(g.orderDate.date)
    ensures t.items.None? ==> r.totalItems == 0
    ensures t.amount.None? ==> r.totalAmount == 0
    ensures t.cost.None? ==> r.totalCost == 0 && r.profit == 0
    ensures t.amount.Some? && t.cost.Some? ==> r.profit == r.totalAmount - r.totalCost
  {
    FactOrder(g.orderId, g.customerKey, DateKey(g.orderDate.date), g.orderDate, g.status,
              Coalesce(t.items, 0), Coalesce(t.amount, 0), Coalesce(t.cost, 0),
              Coalesce(SubtractNullable(t.amount, t.cost), 0))
  }

  /** The rows the `fact_orders` INSERT writes: one per group of the joined relation. */
  function FactOrderRows(s: State): seq<FactOrder> {
    var rows := JoinedRows(s);
    var groups := Distinct(GroupKeys(rows));
    seq(|groups|, i requires 0 <= i < |groups| => Aggregate(groups[i], SumLines(GroupLines(rows, groups[i]))))
  }

  lemma {:induction false} GroupLinesMember(rows: seq<Joined>, g: GroupKey, l: Line)
    ensures l in GroupLines(rows, g) <==> exists j :: 0 <= j < |rows| && rows[j].key == g && rows[j].line == l
  {
    if rows != [] {
      var rest := rows[1..];
      GroupLinesMember(rest, g, l);
      if exists j :: 0 <= j < |rest| && rest[j].key == g && rest[j].line == l {
        var j :| 0 <= j < |rest| && rest[j].key == g && rest[j].line == l;
        assert rows[j + 1] == rest[j];
      }
      if exists j :: 0 <= j < |rows| && rows[j].key == g && rows[j].line == l {
        var j :| 0 <= j < |rows| && rows[j].key == g && rows[j].line == l;
        if j > 0 {
          assert rest[j - 1] == rows[j];
        }
      }
    }
  }

  /** Each fact row is the aggregate of one group key that occurs in the joined relation. */
  lemma FactRowGroup(s: State, i: nat)
    requires i < |FactOrderRows(s)|
    ensures exists j :: 0 <= j < |JoinedRows(s)| && JoinedRows(s)[j].key == KeyOf(FactOrderRows(s)[i])
    ensures FactOrderRows(s)[i] == Aggregate(KeyOf(FactOrderRows(s)[i]), SumLines(GroupLines(JoinedRows(s), KeyOf(FactOrderRows(s)[i]))))
  {
    var rows := JoinedRows(s);
    var keys := GroupKeys(rows);
    var groups := Distinct(keys);
    assert FactOrderRows(s)[i] == Aggregate(groups[i], SumLines(GroupLines(rows, groups[i])));
    assert KeyOf(FactOrderRows(s)[i]) == groups[i];
    assert groups[i] in groups;
    var j :| 0 <= j < |keys| && keys[j] == groups[i];
  }

  /** Each group key of the joined relation has a fact row. */
  lemma GroupFactRow(s: State, j: nat)
    requires j < |JoinedRows(s)|
    ensures exists i :: 0 <= i < |FactOrderRows(s)| && KeyOf(FactOrderRows(s)[i]) == JoinedRows(s)[j].key
  {
    var rows := JoinedRows(s);
    var keys := GroupKeys(rows);
    var groups := Distinct(keys);
    assert keys[j] in keys;
    var i :| 0 <= i < |groups| && groups[i] == keys[j];
    assert KeyOf(FactOrderRows(s)[i]) == groups[i];
  }

  /** No two fact rows share their grouping columns. */
  lemma FactOrderGroupsDistinct(s: State)
    ensures var rows := FactOrderRows(s);
      forall i, k :: 0 <= i < k < |rows| ==> KeyOf(rows[i]) != KeyOf(rows[k])
  {
    var groups := Distinct(GroupKeys(JoinedRows(s)));
    var rows := FactOrderRows(s);
    forall i, k | 0 <= i < k < |rows| ensures KeyOf(rows[i]) != KeyOf(rows[k]) {
      assert KeyOf(rows[i]) == groups[i] && KeyOf(rows[k]) == groups[k];
    }
  }

  // ---------------------------------------------------------------------------
  // which rows fact_orders holds
  // ---------------------------------------------------------------------------

  /**
   * Every staging order yields a fact row for each customer key it joins
   * with, carrying its order id, date and status and the YYYYMMDD key of its
   * date: `staging.orders` is the left side of all joins, and an order without
   * items still joins with one all-NULL item row.
   */
  lemma FactOrdersCoverOrders(s: State, k: nat, ck: Option<nat>)
    requires k < |s.orders|
    requires ck in CustomerMatches(s.orders[k], s.dimCustomers)
    ensures var o := s.orders[k];
      exists i :: 0 <= i < |FactOrderRows(s)|
        && KeyOf(FactOrderRows(s)[i]) == GroupKey(o.orderId, ck, o.orderDate, o.status)
        && FactOrderRows(s)[i].orderDateKey == DateKey(o.orderDate.date)
  {
    var o := s.orders[k];
    var keys := CustomerMatches(o, s.dimCustomers);
    var lines := OrderLines(o.orderId, s.orderItems, s.products, s.dimProducts);
    var a :| 0 <= a < |keys| && keys[a] == ck;
    var x := Joined(GroupKey(o.orderId, ck, o.orderDate, o.status), lines[0]);
    WithKeysMember(o, keys, lines, x);
    JoinOrdersMember(s.orders, s, x);
    var rows := JoinedRows(s);
    var j :| 0 <= j < |rows| && rows[j] == x;
    GroupFactRow(s, j);
    var i :| 0 <= i < |FactOrderRows(s)| && KeyOf(FactOrderRows(s)[i]) == x.key;
    FactRowGroup(s, i);
  }

  /** Every joined row comes from one staging order: its key columns, one of its customer keys and one of its item rows. */
  lemma JoinedRowOrigin(s: State, x: Joined)
    requires x in JoinedRows(s)
    ensures exists k :: (0 <= k < |s.orders|
      && x.key == GroupKey(s.orders[k].orderId, x.key.customerKey, s.orders[k].orderDate, s.orders[k].status)
      && x.key.customerKey in CustomerMatches(s.orders[k], s.dimCustomers)
      && x.line in OrderLines(s.orders[k].orderId, s.orderItems, s.products, s.dimProducts))
  {
    JoinOrdersMember(s.orders, s, x);
    var k :| 0 <= k < |s.orders| && x in JoinOrder(s.orders[k], s);
    var o := s.orders[k];
    var keys := CustomerMatches(o, s.dimCustomers);
    var lines := OrderLines(o.orderId, s.orderItems, s.products, s.dimProducts);
    WithKeysMember(o, keys, lines, x);
    var a, b :| 0 <= a < |keys| && 0 <= b < |lines| && x == Joined(GroupKey(o.orderId, keys[a], o.orderDate, o.status), lines[b]);
  }

  /**
   * Every fact row comes from a staging order: it carries that order's id,
   * date and status, a customer key the order joins with, and the YYYYMMDD key
   * of its date.
   */
  lemma FactOrdersFromOrders(s: State, i: nat)
    requires i < |FactOrderRows(s)|
    ensures var r := FactOrderRows(s)[i];
      && r.orderDateKey == DateKey(r.orderDate.date)
      && exists k :: 0 <= k < |s.orders|
           && KeyOf(r) == GroupKey(s.orders[k].orderId, r.customerKey, s.orders[k].orderDate, s.orders[k].status)
           && r.customerKey in CustomerMatches(s.orders[k], s.dimCustomers)
  {
    var rows := JoinedRows(s);
    FactRowGroup(s, i);
    var j :| 0 <= j < |rows| && rows[j].key == KeyOf(FactOrderRows(s)[i]);
    JoinedRowOrigin(s, rows[j]);
  }

  /**
   * The LEFT JOIN to `dim_customers` fans out: an order gets a fact row for
   * every `dim_customers` row with its customer id, and one with a NULL
   * `customer_key` when there is none.
   */
  lemma FactOrdersCustomerFanOut(s: State, k: nat)
    requires k < |s.orders|
    ensures var o := s.orders[k];
      && (forall d :: 0 <= d < |s.dimCustomers| && s.dimCustomers[d].row.customerId == o.customerId ==>
            exists i :: 0 <= i < |FactOrderRows(s)|
              && KeyOf(FactOrderRows(s)[i]) == GroupKey(o.orderId, Some(s.dimCustomers[d].key), o.orderDate, o.status))
      && ((forall d :: 0 <= d < |s.dimCustomers| ==> s.dimCustomers[d].row.customerId != o.customerId) ==>
            exists i :: 0 <= i < |FactOrderRows(s)|
              && KeyOf(FactOrderRows(s)[i]) == GroupKey(o.orderId, None, o.orderDate, o.status))
  {
    var o := s.orders[k];
    forall d | 0 <= d < |s.dimCustomers| && s.dimCustomers[d].row.customerId == o.customerId
      ensures exists i :: (0 <= i < |FactOrderRows(s)|
        && KeyOf(FactOrderRows(s)[i]) == GroupKey(o.orderId, Some(s.dimCustomers[d].key), o.orderDate, o.status))
    {
      CustomerMatchesMeaning(o, s.dimCustomers, Some(s.dimCustomers[d].key));
      FactOrdersCoverOrders(s, k, Some(s.dimCustomers[d].key));
    }
    if forall d :: 0 <= d < |s.dimCustomers| ==> s.dimCustomers[d].row.customerId != o.customerId {
      CustomerMatchesMeaning(o, s.dimCustomers, None);
      FactOrdersCoverOrders(s, k, None);
    }
  }

  /** Every non-NULL `customer_key` of a fact row names a `dim_customers` row. */
  lemma FactOrderCustomerKeysResolve(s: State, next: nat)
    ensures CustomerKeysResolve(AssignKeys(FactOrderRows(s), next), s.dimCustomers)
  {
    var rows := FactOrderRows(s);
    var t := AssignKeys(rows, next);
    forall i | 0 <= i < |t| && t[i].row.customerKey.Some?
      ensures HasKey(s.dimCustomers, t[i].row.customerKey.value)
    {
      assert t[i].row == rows[i];
      FactOrdersFromOrders(s, i);
      var k :| 0 <= k < |s.orders| && KeyOf(rows[i]) == GroupKey(s.orders[k].orderId, rows[i].customerKey, s.orders[k].orderDate, s.orders[k].status)
        && rows[i].customerKey in CustomerMatches(s.orders[k], s.dimCustomers);
      CustomerMatchesMeaning(s.orders[k], s.dimCustomers, rows[i].customerKey);
    }
  }

  /** `fact_orders` is empty exactly when `staging.orders` is. */
  lemma FactOrderRowsNonEmpty(s: State)
    ensures |FactOrderRows(s)| > 0 <==> |s.orders| > 0
  {
    if |s.orders| > 0 {
      FactOrdersCoverOrders(s, 0, CustomerMatches(s.orders[0], s.dimCustomers)[0]);
    }
    if |FactOrderRows(s)| > 0 {
      FactOrdersFromOrders(s, 0);
    }
  }

  // ---------------------------------------------------------------------------
  // the aggregates
  // ---------------------------------------------------------------------------

  lemma {:induction false} ItemsLinesEmpty(orderId: int, items: seq<StagedOrderItem>, products: seq<StagedProduct>, dimP: seq<Keyed<ProductDim>>)
    requires forall m :: 0 <= m < |items| ==> items[m].orderId != orderId
    ensures ItemsLines(orderId, items, products, dimP) == []
  {
    if items != [] {
      assert forall m :: 0 <= m < |items[1..]| ==> items[1..][m] == items[m + 1];
      ItemsLinesEmpty(orderId, items[1..], products, dimP);
    }
  }

  /** An item row always carries its quantity and amount; only the cost can be NULL. */
  lemma {:induction false} ItemsLinesPresent(orderId: int, items: seq<StagedOrderItem>, products: seq<StagedProduct>, dimP: seq<Keyed<ProductDim>>, l: Line)
    requires l in ItemsLines(orderId, items, products, dimP)
    ensures l.quantity.Some? && l.amount.Some?
  {
    if items != [] {
      var head := if items[0].orderId == orderId then ItemLines(items[0], products, dimP) else [];
      if l !in head {
        ItemsLinesPresent(orderId, items[1..], products, dimP, l);
      }
    }
  }

  /** A value of an order's item side: NULL in every column, or quantity and amount present. */
  lemma OrderLinesShape(orderId: int, items: seq<StagedOrderItem>, products: seq<StagedProduct>, dimP: seq<Keyed<ProductDim>>, l: Line)
    requires l in OrderLines(orderId, items, products, dimP)
    ensures l == NullLine || (l.quantity.Some? && l.amount.Some?)
  {
    if ItemsLines(orderId, items, products, dimP) != [] {
      ItemsLinesPresent(orderId, items, products, dimP, l);
    }
  }

  /**
   * `profit` is `total_amount - total_cost`, except in a group where no item
   * found a product cost: there `SUM(cost)` is NULL, and both `total_cost` and
   * `profit` are coalesced to 0.
   */
  lemma FactOrderProfit(s: State, i: nat)
    requires i < |FactOrderRows(s)|
    ensures var r := FactOrderRows(s)[i];
      Sum(Costs(GroupLines(JoinedRows(s), KeyOf(r)))).None? ==> r.profit == 0 && r.totalCost == 0
    ensures var r := FactOrderRows(s)[i];
      Sum(Costs(GroupLines(JoinedRows(s), KeyOf(r)))).Some? ==> r.profit == r.totalAmount - r.totalCost
  {
    var rows := JoinedRows(s);
    var r := FactOrderRows(s)[i];
    var g := KeyOf(r);
    FactRowGroup(s, i);
    var lines := GroupLines(rows, g);
    var t := SumLines(lines);
    if t.cost.Some? {
      var costs := Costs(lines);
      var c :| 0 <= c < |costs| && costs[c].Some?;
      GroupLinesMember(rows, g, lines[c]);
      var j :| 0 <= j < |rows| && rows[j].key == g && rows[j].line == lines[c];
      JoinedRowOrigin(s, rows[j]);
      var k :| 0 <= k < |s.orders| && rows[j].line in OrderLines(s.orders[k].orderId, s.orderItems, s.products, s.dimProducts);
      OrderLinesShape(s.orders[k].orderId, s.orderItems, s.products, s.dimProducts, rows[j].line);
      assert Amounts(lines)[c].Some?;
    }
  }

  /** In the joined relation, a group whose order id has no staging items holds only the all-NULL item side. */
  lemma GroupLinesWithoutItems(s: State, g: GroupKey)
    requires forall m :: 0 <= m < |s.orderItems| ==> s.orderItems[m].orderId != g.orderId
    ensures forall c :: 0 <= c < |GroupLines(JoinedRows(s), g)| ==> GroupLines(JoinedRows(s), g)[c] == NullLine
  {
    var rows := JoinedRows(s);
    var lines := GroupLines(rows, g);
    ItemsLinesEmpty(g.orderId, s.orderItems, s.products, s.dimProducts);
    forall c | 0 <= c < |lines| ensures lines[c] == NullLine {
      GroupLinesMember(rows, g, lines[c]);
      var j :| 0 <= j < |rows| && rows[j].key == g && rows[j].line == lines[c];
      JoinedRowOrigin(s, rows[j]);
    }
  }

  /** An order id without staging items gets all four totals 0, in every fact row of that id. */
  lemma FactOrderWithoutItems(s: State, i: nat)
    requires i < |FactOrderRows(s)|
    requires forall m :: 0 <= m < |s.orderItems| ==> s.orderItems[m].orderId != FactOrderRows(s)[i].orderId
    ensures var r := FactOrderRows(s)[i];
      r.totalItems == 0 && r.totalAmount == 0 && r.totalCost == 0 && r.profit == 0
  {
    var r := FactOrderRows(s)[i];
    var g := KeyOf(r);
    FactRowGroup(s, i);
    GroupLinesWithoutItems(s, g);
    var lines := GroupLines(JoinedRows(s), g);
    assert forall c :: 0 <= c < |lines| ==> Quantities(lines)[c].None? && Amounts(lines)[c].None? && Costs(lines)[c].None?;
  }

  // ---------------------------------------------------------------------------
  // per-order totals against reference sums
  // ---------------------------------------------------------------------------

  /** Product ids are unique in `staging.products` and in `dim_products`. */
  predicate ProductIdsUnique(products: seq<StagedProduct>, dimP: seq<Keyed<ProductDim>>) {
    && (forall i, j :: 0 <= i < j < |products| ==> products[i].productId != products[j].productId)
    && (forall i, j :: 0 <= i < j < |dimP| ==> dimP[i].row.productId != dimP[j].row.productId)
  }

  function HasProduct(productId: int, products: seq<StagedProduct>): bool {
    products != [] && (products[0].productId == productId || HasProduct(productId, products[1..]))
  }

  function FirstCost(productId: int, dimP: seq<Keyed<ProductDim>>): Option<int> {
    if dimP == [] then None
    else if dimP[0].row.productId == productId then Some(dimP[0].row.cost)
    else FirstCost(productId, dimP[1..])
  }

  /**
   * The unit cost the joins find for a product id: the cost of its
   * `dim_products` row, provided the id also has a staging product row (the
   * join to `dim_products` goes through `staging.products`).
   */
  function ProductCost(productId: int, products: seq<StagedProduct>, dimP: seq<Keyed<ProductDim>>): Option<int> {
    if HasProduct(productId, products) then FirstCost(productId, dimP) else None
  }

  /** The sum of the quantities of the items of an order id. */
  function QuantityTotal(orderId: int, items: seq<StagedOrderItem>): int {
    if items == [] then 0
    else (if items[0].orderId == orderId then items[0].quantity else 0) + QuantityTotal(orderId, items[1..])
  }

  /** The sum of quantity times unit price over the items of an order id. */
  function AmountTotal(orderId: int, items: seq<StagedOrderItem>): int {
    if items == [] then 0
    else (if items[0].orderId == orderId then items[0].quantity * items[0].unitPrice else 0) + AmountTotal(orderId, items[1..])
  }

  /** The sum of quantity times unit cost over the items of an order id whose product cost is found. */
  function CostTotal(orderId: int, items: seq<StagedOrderItem>, products: seq<StagedProduct>, dimP: seq<Keyed<ProductDim>>): int {
    if items == [] then 0
    else
      var c := ProductCost(items[0].productId, products, dimP);
      (if items[0].orderId == orderId && c.Some? then items[0].quantity * c.value else 0)
      + CostTotal(orderId, items[1..], products, dimP)
  }

  function HasItems(orderId: int, items: seq<StagedOrderItem>): bool {
    items != [] && (items[0].orderId == orderId || HasItems(orderId, items[1..]))
  }

  /** Whether some item of the order id has a product cost. */
  function CostFound(orderId: int, items: seq<StagedOrderItem>, products: seq<StagedProduct>, dimP: seq<Keyed<ProductDim>>): bool {
    items != [] &&
      ((items[0].orderId == orderId && ProductCost(items[0].productId, products, dimP).Some?)
       || CostFound(orderId, items[1..], products, dimP))
  }

  function AddSums(x: Sums, y: Sums): Sums {
    Sums(AddNullable(x.items, y.items), AddNullable(x.amount, y.amount), AddNullable(x.cost, y.cost))
  }

  lemma SumLinesConcat(a: seq<Line>, b: seq<Line>)
    ensures SumLines(a + b) == AddSums(SumLines(a), SumLines(b))
  {
    assert Quantities(a + b) == Quantities(a) + Quantities(b);
    assert Amounts(a + b) == Amounts(a) + Amounts(b);
    assert Costs(a + b) == Costs(a) + Costs(b);
    SumConcat(Quantities(a), Quantities(b));
    SumConcat(Amounts(a), Amounts(b));
    SumConcat(Costs(a), Costs(b));
  }

  lemma {:induction false} DimCostsAbsent(productId: int, dimP: seq<Keyed<ProductDim>>)
    requires forall i :: 0 <= i < |dimP| ==> dimP[i].row.productId != productId
    ensures DimCosts(productId, dimP) == [] && FirstCost(productId, dimP) == None
  {
    if dimP != [] {
      assert forall i :: 0 <= i < |dimP[1..]| ==> dimP[1..][i] == dimP[i + 1];
      DimCostsAbsent(productId, dimP[1..]);
    }
  }

  lemma {:induction false} DimCostsUnique(productId: int, dimP: seq<Keyed<ProductDim>>)
    requires forall i, j :: 0 <= i < j < |dimP| ==> dimP[i].row.productId != dimP[j].row.productId
    ensures DimCosts(productId, dimP) == (if FirstCost(productId, dimP).Some? then [FirstCost(productId, dimP).value] else [])
  {
    if dimP != [] {
      var rest := dimP[1..];
      assert forall i :: 0 <= i < |rest| ==> rest[i] == dimP[i + 1];
      if dimP[0].row.productId == productId {
        DimCostsAbsent(productId, rest);
      } else {
        DimCostsUnique(productId, rest);
      }
    }
  }

  lemma {:induction false} ProductJoinAbsent(productId: int, products: seq<StagedProduct>, dimP: seq<Keyed<ProductDim>>)
    requires forall i :: 0 <= i < |products| ==> products[i].productId != productId
    ensures ProductJoin(productId, products, dimP) == [] && !HasProduct(productId, products)
  {
    if products != [] {
      assert forall i :: 0 <= i < |products[1..]| ==> products[1..][i] == products[i + 1];
      ProductJoinAbsent(productId, products[1..], dimP);
    }
  }

  lemma {:induction false} ProductJoinUnique(productId: int, products: seq<StagedProduct>, dimP: seq<Keyed<ProductDim>>)
    requires forall i, j :: 0 <= i < j < |products| ==> products[i].productId != products[j].productId
    ensures ProductJoin(productId, products, dimP) ==
      (if HasProduct(productId, products) then OrNull(Present(DimCosts(productId, dimP))) else [])
  {
    if products != [] {
      var rest := products[1..];
      assert forall i :: 0 <= i < |rest| ==> rest[i] == products[i + 1];
      if products[0].productId == productId {
        ProductJoinAbsent(productId, rest, dimP);
        assert OrNull(Present(DimCosts(productId, dimP))) + [] == OrNull(Present(DimCosts(productId, dimP)));
      } else {
        ProductJoinUnique(productId, rest, dimP);
      }
    }
  }

  /** With unique product ids every item joins with exactly one cost value: its product cost, or NULL. */
  lemma ItemCostsUnique(productId: int, products: seq<StagedProduct>, dimP: seq<Keyed<ProductDim>>)
    requires ProductIdsUnique(products, dimP)
    ensures ItemCosts(productId, products, dimP) == [ProductCost(productId, products, dimP)]
  {
    ProductJoinUnique(productId, products, dimP);
    DimCostsUnique(productId, dimP);
  }

  /** An order id without items has zero totals, and one whose item costs are all missing has zero cost. */
  lemma {:induction false} ReferenceTotalsVanish(orderId: int, items: seq<StagedOrderItem>, products: seq<StagedProduct>, dimP: seq<Keyed<ProductDim>>)
    ensures !HasItems(orderId, items) ==> QuantityTotal(orderId, items) == 0 && AmountTotal(orderId, items) == 0
    ensures !CostFound(orderId, items, products, dimP) ==> CostTotal(orderId, items, products, dimP) == 0
    ensures CostFound(orderId, items, products, dimP) ==> HasItems(orderId, items)
  {
    if items != [] {
      ReferenceTotalsVanish(orderId, items[1..], products, dimP);
    }
  }

  /** The sums of an order's item rows, stated with the reference totals. */
  function ReferenceSums(orderId: int, items: seq<StagedOrderItem>, products: seq<StagedProduct>, dimP: seq<Keyed<ProductDim>>): Sums {
    Sums(if HasItems(orderId, items) then Some(QuantityTotal(orderId, items)) else None,
         if HasItems(orderId, items) then Some(AmountTotal(orderId, items)) else None,
         if CostFound(orderId, items, products, dimP) then Some(CostTotal(orderId, items, products, dimP)) else None)
  }

  /** The rows of one item add up to its quantity, its price total and its cost total (NULL without a cost). */
  lemma ItemLinesSum(oi: StagedOrderItem, products: seq<StagedProduct>, dimP: seq<Keyed<ProductDim>>)
    requires ProductIdsUnique(products, dimP)
    ensures SumLines(ItemLines(oi, products, dimP)) ==
      Sums(Some(oi.quantity), Some(oi.quantity * oi.unitPrice), Scale(oi.quantity, ProductCost(oi.productId, products, dimP)))
  {
    ItemCostsUnique(oi.productId, products, dimP);
    var head := ItemLines(oi, products, dimP);
    assert Quantities(head) == [Some(oi.quantity)];
    assert Amounts(head) == [Some(oi.quantity * oi.unitPrice)];
    assert Costs(head) == [Scale(oi.quantity, ProductCost(oi.productId, products, dimP))];
  }

  /** The contribution of one item to the sums of an order id. */
  function ItemSums(orderId: int, oi: StagedOrderItem, products: seq<StagedProduct>, dimP: seq<Keyed<ProductDim>>): Sums {
    if oi.orderId == orderId
    then Sums(Some(oi.quantity), Some(oi.quantity * oi.unitPrice), Scale(oi.quantity, ProductCost(oi.productId, products, dimP)))
    else Sums(None, None, None)
  }

  lemma ReferenceSumsStep(orderId: int, items: seq<StagedOrderItem>, products: seq<StagedProduct>, dimP: seq<Keyed<ProductDim>>)
    requires items != []
    ensures ReferenceSums(orderId, items, products, dimP) ==
      AddSums(ItemSums(orderId, items[0], products, dimP), ReferenceSums(orderId, items[1..], products, dimP))
  {
    ReferenceTotalsVanish(orderId, items[1..], products, dimP);
  }

  lemma {:induction false} ItemsLinesSums(orderId: int, items: seq<StagedOrderItem>, products: seq<StagedProduct>, dimP: seq<Keyed<ProductDim>>)
    requires ProductIdsUnique(products, dimP)
    ensures SumLines(ItemsLines(orderId, items, products, dimP)) == ReferenceSums(orderId, items, products, dimP)
  {
    if items == [] {
      assert Quantities([]) == [] && Amounts([]) == [] && Costs([]) == [];
    } else {
      var oi, rest := items[0], items[1..];
      var head := if oi.orderId == orderId then ItemLines(oi, products, dimP) else [];
      assert ItemsLines(orderId, items, products, dimP) == head + ItemsLines(orderId, rest, products, dimP);
      ItemsLinesSums(orderId, rest, products, dimP);
      SumLinesConcat(head, ItemsLines(orderId, rest, products, dimP));
      if oi.orderId == orderId {
        ItemLinesSum(oi, products, dimP);
      } else {
        assert Quantities(head) == [] && Amounts(head) == [] && Costs(head) == [];
      }
      assert SumLines(head) == ItemSums(orderId, oi, products, dimP);
      ReferenceSumsStep(orderId, items, products, dimP);
    }
  }

  // ---------------------------------------------------------------------------
  // the group of one order
  // ---------------------------------------------------------------------------

  /** Order ids are unique in `staging.orders`. */
  predicate OrderIdsUnique(orders: seq<StagedOrder>) {
    forall i, j :: 0 <= i < j < |orders| ==> orders[i].orderId != orders[j].orderId
  }

  lemma {:induction false} GroupLinesConcat(a: seq<Joined>, b: seq<Joined>, g: GroupKey)
    ensures GroupLines(a + b, g) == GroupLines(a, g) + GroupLines(b, g)
  {
    if a == [] {
      assert a + b == b;
    } else {
      assert (a + b)[0] == a[0];
      assert (a + b)[1..] == a[1..] + b;
      GroupLinesConcat(a[1..], b, g);
    }
  }

  lemma {:induction false} GroupLinesKeyLines(o: StagedOrder, ck: Option<nat>, lines: seq<Line>, g: GroupKey)
    ensures GroupLines(KeyLines(o, ck, lines), g) ==
      (if g == GroupKey(o.orderId, ck, o.orderDate, o.status) then lines else [])
  {
    if lines != [] {
      assert KeyLines(o, ck, lines)[1..] == KeyLines(o, ck, lines[1..]);
      GroupLinesKeyLines(o, ck, lines[1..], g);
    }
  }

  /** With distinct customer keys, an order's joined rows hold each group's item rows once. */
  lemma {:induction false} GroupLinesWithKeys(o: StagedOrder, keys: seq<Option<nat>>, lines: seq<Line>, g: GroupKey)
    requires NoDuplicates(keys)
    ensures GroupLines(WithKeys(o, keys, lines), g) ==
      (if g == GroupKey(o.orderId, g.customerKey, o.orderDate, o.status) && g.customerKey in keys then lines else [])
  {
    if keys != [] {
      var rest := keys[1..];
      assert forall i :: 0 <= i < |rest| ==> rest[i] == keys[i + 1];
      GroupLinesConcat(KeyLines(o, keys[0], lines), WithKeys(o, rest, lines), g);
      GroupLinesKeyLines(o, keys[0], lines, g);
      GroupLinesWithKeys(o, rest, lines, g);
      if g.customerKey == keys[0] {
        assert g.customerKey !in rest;
      }
    }
  }

  lemma {:induction false} GroupLinesOtherOrders(orders: seq<StagedOrder>, s: State, g: GroupKey)
    requires forall k :: 0 <= k < |orders| ==> orders[k].orderId != g.orderId
    ensures GroupLines(JoinOrders(orders, s), g) == []
  {
    if orders != [] {
      var o := orders[0];
      assert forall k :: 0 <= k < |orders[1..]| ==> orders[1..][k] == orders[k + 1];
      GroupLinesOtherOrders(orders[1..], s, g);
      GroupLinesConcat(JoinOrder(o, s), JoinOrders(orders[1..], s), g);
      GroupLinesOtherOrder(o, s, g);
    }
  }

  /** An order's joined rows contribute nothing to a group of another order id. */
  lemma GroupLinesOtherOrder(o: StagedOrder, s: State, g: GroupKey)
    requires o.orderId != g.orderId
    ensures GroupLines(JoinOrder(o, s), g) == []
  {
    var keys := CustomerMatches(o, s.dimCustomers);
    var lines := OrderLines(o.orderId, s.orderItems, s.products, s.dimProducts);
    var rows := WithKeys(o, keys, lines);
    if GroupLines(rows, g) != [] {
      GroupLinesMember(rows, g, GroupLines(rows, g)[0]);
      var j :| 0 <= j < |rows| && rows[j].key == g && rows[j].line == GroupLines(rows, g)[0];
      WithKeysMember(o, keys, lines, rows[j]);
    }
  }

  /** With unique order ids, the group of an order id gets only the joined rows of the one order with that id. */
  lemma {:induction false} GroupLinesJoinOrders(orders: seq<StagedOrder>, s: State, g: GroupKey, k: nat)
    requires OrderIdsUnique(orders)
    requires k < |orders| && orders[k].orderId == g.orderId
    ensures GroupLines(JoinOrders(orders, s), g) == GroupLines(JoinOrder(orders[k], s), g)
  {
    var rest := orders[1..];
    assert forall m :: 0 <= m < |rest| ==> rest[m] == orders[m + 1];
    GroupLinesConcat(JoinOrder(orders[0], s), JoinOrders(rest, s), g);
    if k == 0 {
      GroupLinesOtherOrders(rest, s, g);
    } else {
      GroupLinesOtherOrder(orders[0], s, g);
      GroupLinesJoinOrders(rest, s, g, k - 1);
    }
  }

  /** With unique order ids and customer keys, the group of a fact row holds exactly the item side of its order. */
  lemma FactRowLines(s: State, i: nat)
    requires OrderIdsUnique(s.orders) && KeysUnique(s.dimCustomers)
    requires i < |FactOrderRows(s)|
    ensures GroupLines(JoinedRows(s), KeyOf(FactOrderRows(s)[i])) ==
      OrderLines(FactOrderRows(s)[i].orderId, s.orderItems, s.products, s.dimProducts)
  {
    var rows := JoinedRows(s);
    var g := KeyOf(FactOrderRows(s)[i]);
    FactRowGroup(s, i);
    var j :| 0 <= j < |rows| && rows[j].key == g;
    JoinedRowOrigin(s, rows[j]);
    var k :| 0 <= k < |s.orders|
      && g == GroupKey(s.orders[k].orderId, g.customerKey, s.orders[k].orderDate, s.orders[k].status)
      && g.customerKey in CustomerMatches(s.orders[k], s.dimCustomers);
    var o := s.orders[k];
    GroupLinesJoinOrders(s.orders, s, g, k);
    CustomerMatchesDistinct(o, s.dimCustomers);
    GroupLinesWithKeys(o, CustomerMatches(o, s.dimCustomers), OrderLines(o.orderId, s.orderItems, s.products, s.dimProducts), g);
  }

  /**
   * The totals of a fact row are the sums over the items of its order id:
   * `total_items` the quantities, `total_amount` quantity times unit price,
   * `total_cost` quantity times unit cost over the items whose product cost is
   * found, and `profit` their difference, or 0 when no item found a cost.
   * Order ids, customer keys and product ids must be unique for the joins not
   * to repeat item rows.
   */
  lemma FactOrderTotals(s: State, i: nat)
    requires OrderIdsUnique(s.orders) && KeysUnique(s.dimCustomers) && ProductIdsUnique(s.products, s.dimProducts)
    requires i < |FactOrderRows(s)|
    ensures var r := FactOrderRows(s)[i];
      && r.totalItems == QuantityTotal(r.orderId, s.orderItems)
      && r.totalAmount == AmountTotal(r.orderId, s.orderItems)
      && r.totalCost == CostTotal(r.orderId, s.orderItems, s.products, s.dimProducts)
      && r.profit == (if CostFound(r.orderId, s.orderItems, s.products, s.dimProducts) then r.totalAmount - r.totalCost else 0)
  {
    var r := FactOrderRows(s)[i];
    FactRowGroup(s, i);
    FactRowLines(s, i);
    ItemsLinesSums(r.orderId, s.orderItems, s.products, s.dimProducts);
    ReferenceTotalsVanish(r.orderId, s.orderItems, s.products, s.dimProducts);
    if ItemsLines(r.orderId, s.orderItems, s.products, s.dimProducts) == [] {
      assert Quantities([]) == [] && Amounts([]) == [] && Costs([]) == [];
      assert Quantities([NullLine]) == [None] && Amounts([NullLine]) == [None] && Costs([NullLine]) == [None];
    }
  }

  // ---------------------------------------------------------------------------
  // load_fact_order_items: staging.order_items JOIN fact_orders JOIN dim_products
  // ---------------------------------------------------------------------------

  /** The SELECT list of the `fact_order_items` query for one item, fact order and product. */
  function ItemFact(oi: StagedOrderItem, fo: Keyed<FactOrder>, dp: Keyed<ProductDim>): (x: FactOrderItem)
    ensures x.orderKey == fo.key && x.productKey == dp.key && x.unitCost == dp.row.cost
    ensures x.orderId == oi.orderId && x.productId == oi.productId
      && x.quantity == oi.quantity && x.unitPrice == oi.unitPrice
    ensures x.totalPrice == x.quantity * x.unitPrice && x.totalCost == x.quantity * x.unitCost
      && x.profit == x.totalPrice - x.totalCost
  {
    FactOrderItem(fo.key, dp.key, oi.orderId, oi.productId, oi.quantity, oi.unitPrice,
                  oi.quantity * oi.unitPrice, dp.row.cost, oi.quantity * dp.row.cost,
                  oi.quantity * oi.unitPrice - oi.quantity * dp.row.cost)
  }

  /** The rows of one item and one fact order: one per `dim_products` row with the item's product id. */
  function ProductFacts(oi: StagedOrderItem, fo: Keyed<FactOrder>, dimP: seq<Keyed<ProductDim>>): seq<FactOrderItem> {
    if dimP == [] then []
    else (if dimP[0].row.productId == oi.productId then [ItemFact(oi, fo, dimP[0])] else [])
         + ProductFacts(oi, fo, dimP[1..])
  }

  /** The rows of one item: one per fact order with its order id and matching product. */
  function OrderFacts(oi: StagedOrderItem, factOrders: seq<Keyed<FactOrder>>, dimP: seq<Keyed<ProductDim>>): seq<FactOrderItem> {
    if factOrders == [] then []
    else (if factOrders[0].row.orderId == oi.orderId then ProductFacts(oi, factOrders[0], dimP) else [])
         + OrderFacts(oi, factOrders[1..], dimP)
  }

  /**
   * The rows the `fact_order_items` INSERT writes. Run before `fact_orders`
   * is loaded (or after it was emptied), the inner join writes nothing.
   */
  function ItemFacts(items: seq<StagedOrderItem>, factOrders: seq<Keyed<FactOrder>>, dimP: seq<Keyed<ProductDim>>): (r: seq<FactOrderItem>)
    ensures factOrders == [] ==> r == []
  {
    if items == [] then [] else OrderFacts(items[0], factOrders, dimP) + ItemFacts(items[1..], factOrders, dimP)
  }

  lemma {:induction false} ProductFactsMember(oi: StagedOrderItem, fo: Keyed<FactOrder>, dimP: seq<Keyed<ProductDim>>, x: FactOrderItem)
    ensures x in ProductFacts(oi, fo, dimP) <==>
      exists d :: 0 <= d < |dimP| && dimP[d].row.productId == oi.productId && x == ItemFact(oi, fo, dimP[d])
  {
    if dimP != [] {
      var rest := dimP[1..];
      ProductFactsMember(oi, fo, rest, x);
      if exists d :: 0 <= d < |rest| && rest[d].row.productId == oi.productId && x == ItemFact(oi, fo, rest[d]) {
        var d :| 0 <= d < |rest| && rest[d].row.productId == oi.productId && x == ItemFact(oi, fo, rest[d]);
        assert dimP[d + 1] == rest[d];
      }
      if exists d :: 0 <= d < |dimP| && dimP[d].row.productId == oi.productId && x == ItemFact(oi, fo, dimP[d]) {
        var d :| 0 <= d < |dimP| && dimP[d].row.productId == oi.productId && x == ItemFact(oi, fo, dimP[d]);
        if d > 0 {
          assert rest[d - 1] == dimP[d];
        }
      }
    }
  }

  /** Whether a row is the join of an item with a fact order and a product row: both equi-join conditions hold. */
  predicate ItemFactOf(oi: StagedOrderItem, fo: Keyed<FactOrder>, dp: Keyed<ProductDim>, x: FactOrderItem) {
    fo.row.orderId == oi.orderId && dp.row.productId == oi.productId && x == ItemFact(oi, fo, dp)
  }

  lemma {:induction false} OrderFactsMember(oi: StagedOrderItem, factOrders: seq<Keyed<FactOrder>>, dimP: seq<Keyed<ProductDim>>, x: FactOrderItem)
    ensures x in OrderFacts(oi, factOrders, dimP) <==>
      exists f, d :: 0 <= f < |factOrders| && 0 <= d < |dimP| && ItemFactOf(oi, factOrders[f], dimP[d], x)
  {
    if factOrders != [] {
      var rest := factOrders[1..];
      OrderFactsMember(oi, rest, dimP, x);
      ProductFactsMember(oi, factOrders[0], dimP, x);
      if exists f, d :: 0 <= f < |rest| && 0 <= d < |dimP| && ItemFactOf(oi, rest[f], dimP[d], x) {
        var f, d :| 0 <= f < |rest| && 0 <= d < |dimP| && ItemFactOf(oi, rest[f], dimP[d], x);
        assert factOrders[f + 1] == rest[f];
      }
      if exists f, d :: 0 <= f < |factOrders| && 0 <= d < |dimP| && ItemFactOf(oi, factOrders[f], dimP[d], x) {
        var f, d :| 0 <= f < |factOrders| && 0 <= d < |dimP| && ItemFactOf(oi, factOrders[f], dimP[d], x);
        if f > 0 {
          assert rest[f - 1] == factOrders[f];
        }
      }
    }
  }

  /** A row is in `fact_order_items` exactly when it is one of the rows of some staging item. */
  lemma {:induction false} ItemFactsOrders(items: seq<StagedOrderItem>, factOrders: seq<Keyed<FactOrder>>, dimP: seq<Keyed<ProductDim>>, x: FactOrderItem)
    ensures x in ItemFacts(items, factOrders, dimP) <==> exists m :: 0 <= m < |items| && x in OrderFacts(items[m], factOrders, dimP)
  {
    if items != [] {
      var rest := items[1..];
      ItemFactsOrders(rest, factOrders, dimP, x);
      if exists m :: 0 <= m < |rest| && x in OrderFacts(rest[m], factOrders, dimP) {
        var m :| 0 <= m < |rest| && x in OrderFacts(rest[m], factOrders, dimP);
        assert items[m + 1] == rest[m];
      }
      if exists m :: 0 <= m < |items| && x in OrderFacts(items[m], factOrders, dimP) {
        var m :| 0 <= m < |items| && x in OrderFacts(items[m], factOrders, dimP);
        if m > 0 {
          assert rest[m - 1] == items[m];
        }
      }
    }
  }

  /**
   * A row is in `fact_order_items` exactly when it is the join of a staging
   * item with a fact order of the same order id and a `dim_products` row of
   * the same product id: an item without either is dropped, and an item fans
   * out over every matching pair.
   */
  lemma ItemFactsMember(items: seq<StagedOrderItem>, factOrders: seq<Keyed<FactOrder>>, dimP: seq<Keyed<ProductDim>>, x: FactOrderItem)
    ensures x in ItemFacts(items, factOrders, dimP) <==>
      exists m, f, d :: 0 <= m < |items| && 0 <= f < |factOrders| && 0 <= d < |dimP| && ItemFactOf(items[m], factOrders[f], dimP[d], x)
  {
    ItemFactsOrders(items, factOrders, dimP, x);
    if x in ItemFacts(items, factOrders, dimP) {
      var m :| 0 <= m < |items| && x in OrderFacts(items[m], factOrders, dimP);
      OrderFactsMember(items[m], factOrders, dimP, x);
      var f, d :| 0 <= f < |factOrders| && 0 <= d < |dimP| && ItemFactOf(items[m], factOrders[f], dimP[d], x);
    }
    if exists m, f, d :: 0 <= m < |items| && 0 <= f < |factOrders| && 0 <= d < |dimP| && ItemFactOf(items[m], factOrders[f], dimP[d], x) {
      var m, f, d :| 0 <= m < |items| && 0 <= f < |factOrders| && 0 <= d < |dimP| && ItemFactOf(items[m], factOrders[f], dimP[d], x);
      OrderFactsMember(items[m], factOrders, dimP, x);
    }
  }

  /**
   * Every `fact_order_items` row is balanced: its price total is quantity
   * times unit price, its cost total quantity times unit cost, its profit the
   * difference; its unit cost is the cost of the `dim_products` row its
   * `product_key` names, and its `order_key` names a fact order of its order id.
   */
  lemma ItemFactsBalanced(items: seq<StagedOrderItem>, factOrders: seq<Keyed<FactOrder>>, dimP: seq<Keyed<ProductDim>>, x: FactOrderItem)
    requires x in ItemFacts(items, factOrders, dimP)
    ensures x.totalPrice == x.quantity * x.unitPrice
    ensures x.totalCost == x.quantity * x.unitCost
    ensures x.profit == x.totalPrice - x.totalCost
    ensures exists d :: 0 <= d < |dimP| && dimP[d].key == x.productKey && dimP[d].row.productId == x.productId && dimP[d].row.cost == x.unitCost
    ensures exists f :: 0 <= f < |factOrders| && factOrders[f].key == x.orderKey && factOrders[f].row.orderId == x.orderId
  {
    ItemFactsMember(items, factOrders, dimP, x);
    var m, f, d :| 0 <= m < |items| && 0 <= f < |factOrders| && 0 <= d < |dimP| && ItemFactOf(items[m], factOrders[f], dimP[d], x);
  }

  /** Both keys of every `fact_order_items` row resolve. */
  lemma ItemFactsResolve(items: seq<StagedOrderItem>, factOrders: seq<Keyed<FactOrder>>, dimP: seq<Keyed<ProductDim>>)
    ensures ItemKeysResolve(ItemFacts(items, factOrders, dimP), factOrders, dimP)
  {
    var t := ItemFacts(items, factOrders, dimP);
    forall i | 0 <= i < |t| ensures HasKey(factOrders, t[i].orderKey) && HasKey(dimP, t[i].productKey) {
      ItemFactsBalanced(items, factOrders, dimP, t[i]);
    }
  }

  // ---------------------------------------------------------------------------
  // how many rows the join writes: no DISTINCT, so matches multiply
  // ---------------------------------------------------------------------------

  /** The number of `dim_products` rows with this product id. */
  function ProductMatches(dimP: seq<Keyed<ProductDim>>, productId: int): nat {
    if dimP == [] then 0
    else (if dimP[0].row.productId == productId then 1 else 0) + ProductMatches(dimP[1..], productId)
  }

  /** The number of `fact_orders` rows with this order id. */
  function OrderMatches(factOrders: seq<Keyed<FactOrder>>, orderId: int): nat {
    if factOrders == [] then 0
    else (if factOrders[0].row.orderId == orderId then 1 else 0) + OrderMatches(factOrders[1..], orderId)
  }

  /** The sum over the staged items of (matching fact orders) times (matching products). */
  function MatchedRows(items: seq<StagedOrderItem>, factOrders: seq<Keyed<FactOrder>>, dimP: seq<Keyed<ProductDim>>): nat {
    if items == [] then 0
    else OrderMatches(factOrders, items[0].orderId) * ProductMatches(dimP, items[0].productId)
         + MatchedRows(items[1..], factOrders, dimP)
  }

  /** The number of matching (item, fact order, product) index triples whose joined row is `x`. */
  function ProductTriples(oi: StagedOrderItem, fo: Keyed<FactOrder>, dimP: seq<Keyed<ProductDim>>, x: FactOrderItem): nat {
    if dimP == [] then 0
    else (if ItemFactOf(oi, fo, dimP[0], x) then 1 else 0) + ProductTriples(oi, fo, dimP[1..], x)
  }

  function OrderTriples(oi: StagedOrderItem, factOrders: seq<Keyed<FactOrder>>, dimP: seq<Keyed<ProductDim>>, x: FactOrderItem): nat {
    if factOrders == [] then 0
    else ProductTriples(oi, factOrders[0], dimP, x) + OrderTriples(oi, factOrders[1..], dimP, x)
  }

  function ItemTriples(items: seq<StagedOrderItem>, factOrders: seq<Keyed<FactOrder>>, dimP: seq<Keyed<ProductDim>>, x: FactOrderItem): nat {
    if items == [] then 0
    else OrderTriples(items[0], factOrders, dimP, x) + ItemTriples(items[1..], factOrders, dimP, x)
  }

  lemma {:induction false} ProductFactsCount(oi: StagedOrderItem, fo: Keyed<FactOrder>, dimP: seq<Keyed<ProductDim>>)
    ensures |ProductFacts(oi, fo, dimP)| == ProductMatches(dimP, oi.productId)
  {
    if dimP != [] {
      ProductFactsCount(oi, fo, dimP[1..]);
    }
  }

  lemma {:induction false} OrderFactsCount(oi: StagedOrderItem, factOrders: seq<Keyed<FactOrder>>, dimP: seq<Keyed<ProductDim>>)
    ensures |OrderFacts(oi, factOrders, dimP)| == OrderMatches(factOrders, oi.orderId) * ProductMatches(dimP, oi.productId)
  {
    if factOrders != [] {
      var p := ProductMatches(dimP, oi.productId);
      var a := OrderMatches(factOrders[1..], oi.orderId);
      var rest := OrderFacts(oi, factOrders[1..], dimP);
      OrderFactsCount(oi, factOrders[1..], dimP);
      assert |rest| == a * p;
      if factOrders[0].row.orderId == oi.orderId {
        ProductFactsCount(oi, factOrders[0], dimP);
        assert OrderFacts(oi, factOrders, dimP) == ProductFacts(oi, factOrders[0], dimP) + rest;
        assert OrderMatches(factOrders, oi.orderId) == 1 + a;
        MulStep(a, p);
      } else {
        assert OrderFacts(oi, factOrders, dimP) == rest;
        assert OrderMatches(factOrders, oi.orderId) == a;
      }
    }
  }

  lemma MulStep(a: nat, p: nat)
    ensures (1 + a) * p == p + a * p
  {
  }

  /**
   * `fact_order_items` gets one row per (staged item, matching fact order,
   * matching product): for each item, the number of fact orders with its
   * order id times the number of products with its product id. This is the
   * count the load returns.
   */
  lemma {:induction false} ItemFactsCount(items: seq<StagedOrderItem>, factOrders: seq<Keyed<FactOrder>>, dimP: seq<Keyed<ProductDim>>)
    ensures |ItemFacts(items, factOrders, dimP)| == MatchedRows(items, factOrders, dimP)
  {
    if items != [] {
      OrderFactsCount(items[0], factOrders, dimP);
      ItemFactsCount(items[1..], factOrders, dimP);
    }
  }

  /** With one fact order per order id and one product per product id, each staged item gives exactly one row. */
  lemma {:induction false} ItemFactsOnePerItem(items: seq<StagedOrderItem>, factOrders: seq<Keyed<FactOrder>>, dimP: seq<Keyed<ProductDim>>)
    requires forall m :: 0 <= m < |items| ==>
      OrderMatches(factOrders, items[m].orderId) == 1 && ProductMatches(dimP, items[m].productId) == 1
    ensures |ItemFacts(items, factOrders, dimP)| == |items|
  {
    ItemFactsCount(items, factOrders, dimP);
    OnePerItem(items, factOrders, dimP);
  }

  lemma {:induction false} OnePerItem(items: seq<StagedOrderItem>, factOrders: seq<Keyed<FactOrder>>, dimP: seq<Keyed<ProductDim>>)
    requires forall m :: 0 <= m < |items| ==>
      OrderMatches(factOrders, items[m].orderId) == 1 && ProductMatches(dimP, items[m].productId) == 1
    ensures MatchedRows(items, factOrders, dimP) == |items|
  {
    if items != [] {
      assert OrderMatches(factOrders, items[0].orderId) == 1 && ProductMatches(dimP, items[0].productId) == 1;
      forall m | 0 <= m < |items[1..]|
        ensures OrderMatches(factOrders, items[1..][m].orderId) == 1 && ProductMatches(dimP, items[1..][m].productId) == 1
      {
        assert items[1..][m] == items[m + 1];
      }
      OnePerItem(items[1..], factOrders, dimP);
    }
  }

  lemma {:induction false} ProductFactsOccurrences(oi: StagedOrderItem, fo: Keyed<FactOrder>, dimP: seq<Keyed<ProductDim>>, x: FactOrderItem)
    requires fo.row.orderId == oi.orderId
    ensures multiset(ProductFacts(oi, fo, dimP))[x] == ProductTriples(oi, fo, dimP, x)
  {
    if dimP != [] {
      ProductFactsOccurrences(oi, fo, dimP[1..], x);
    }
  }

  lemma {:induction false} NoProductTriples(oi: StagedOrderItem, fo: Keyed<FactOrder>, dimP: seq<Keyed<ProductDim>>, x: FactOrderItem)
    requires fo.row.orderId != oi.orderId
    ensures ProductTriples(oi, fo, dimP, x) == 0
  {
    if dimP != [] {
      NoProductTriples(oi, fo, dimP[1..], x);
    }
  }

  lemma {:induction false} OrderFactsOccurrences(oi: StagedOrderItem, factOrders: seq<Keyed<FactOrder>>, dimP: seq<Keyed<ProductDim>>, x: FactOrderItem)
    ensures multiset(OrderFacts(oi, factOrders, dimP))[x] == OrderTriples(oi, factOrders, dimP, x)
  {
    if factOrders != [] {
      OrderFactsOccurrences(oi, factOrders[1..], dimP, x);
      if factOrders[0].row.orderId == oi.orderId {
        ProductFactsOccurrences(oi, factOrders[0], dimP, x);
      } else {
        NoProductTriples(oi, factOrders[0], dimP, x);
      }
    }
  }

  /**
   * Each row value occurs in `fact_order_items` exactly as often as there
   * are matching (staged item, fact order, product) triples that produce it:
   * identical triples' rows are all kept, none is merged.
   */
  lemma {:induction false} ItemFactsOccurrences(items: seq<StagedOrderItem>, factOrders: seq<Keyed<FactOrder>>, dimP: seq<Keyed<ProductDim>>, x: FactOrderItem)
    ensures multiset(ItemFacts(items, factOrders, dimP))[x] == ItemTriples(items, factOrders, dimP, x)
  {
    if items != [] {
      OrderFactsOccurrences(items[0], factOrders, dimP, x);
      ItemFactsOccurrences(items[1..], factOrders, dimP, x);
    }
  }

  // ---------------------------------------------------------------------------
  // the two loads as state transitions
  // ---------------------------------------------------------------------------

  /**
   * The database after the `load_fact_orders` batch: `TRUNCATE fact_orders
   * CASCADE` also empties `fact_order_items`, and the new rows draw
   * consecutive `order_key` values from the sequence.
   */
  function WithFactOrders(s: State): (t: State)
    ensures Rows(t.factOrders) == FactOrderRows(s) && t.factOrderItems == []
    ensures t.orderKeySeq == s.orderKeySeq + |t.factOrders|
  {
    var rows := FactOrderRows(s);
    s.(factOrders := AssignKeys(rows, s.orderKeySeq),
       orderKeySeq := s.orderKeySeq + |rows|,
       factOrderItems := [])
  }

  /** The database after the `load_fact_order_items` batch (no table references `fact_order_items`). */
  function WithFactOrderItems(s: State): (t: State)
    ensures t.factOrderItems == ItemFacts(s.orderItems, s.factOrders, s.dimProducts)
    ensures t.factOrders == s.factOrders && t.orderKeySeq == s.orderKeySeq
  {
    s.(factOrderItems := ItemFacts(s.orderItems, s.factOrders, s.dimProducts))
  }

  /** Both fact loads keep the database consistent. */
  lemma FactLoadsKeepConsistency(s: State)
    requires Consistent(s)
    ensures Consistent(WithFactOrders(s))
    ensures Consistent(WithFactOrderItems(s))
  {
    FactOrderCustomerKeysResolve(s, s.orderKeySeq);
    ItemFactsResolve(s.orderItems, s.factOrders, s.dimProducts);
  }

  /**
   * After both fact loads, every staging item of a staging order whose product
   * has a `dim_products` row appears in `fact_order_items` once for each
   * customer key the order joins with, carrying its own quantity and price and
   * the product's key and cost.
   */
  lemma FactLoadsCoverItems(s: State, m: nat, k: nat, d: nat, ck: Option<nat>)
    requires m < |s.orderItems| && k < |s.orders| && d < |s.dimProducts|
    requires s.orderItems[m].orderId == s.orders[k].orderId
    requires s.dimProducts[d].row.productId == s.orderItems[m].productId
    requires ck in CustomerMatches(s.orders[k], s.dimCustomers)
    ensures var t := WithFactOrderItems(WithFactOrders(s));
      var oi := s.orderItems[m];
      exists x :: x in t.factOrderItems
        && x.orderId == oi.orderId && x.productId == oi.productId
        && x.quantity == oi.quantity && x.unitPrice == oi.unitPrice
        && x.productKey == s.dimProducts[d].key && x.unitCost == s.dimProducts[d].row.cost
        && (exists f :: 0 <= f < |t.factOrders| && x.orderKey == t.factOrders[f].key
              && t.factOrders[f].row.orderId == oi.orderId && t.factOrders[f].row.customerKey == ck)
  {
    var t1 := WithFactOrders(s);
    var oi := s.orderItems[m];
    FactOrdersCoverOrders(s, k, ck);
    var i :| 0 <= i < |FactOrderRows(s)| && KeyOf(FactOrderRows(s)[i]) == GroupKey(s.orders[k].orderId, ck, s.orders[k].orderDate, s.orders[k].status)
      && FactOrderRows(s)[i].orderDateKey == DateKey(s.orders[k].orderDate.date);
    assert t1.factOrders[i].row == FactOrderRows(s)[i];
    var x := ItemFact(oi, t1.factOrders[i], s.dimProducts[d]);
    assert ItemFactOf(t1.orderItems[m], t1.factOrders[i], t1.dimProducts[d], x);
    ItemFactsMember(t1.orderItems, t1.factOrders, t1.dimProducts, x);
  }

  // ---------------------------------------------------------------------------
  // the loader methods
  // ---------------------------------------------------------------------------

  /**
   * `load_fact_orders`: one batch (truncate and insert), then the count of
   * the table. A batch that raises leaves the database as it was.
   */
  method LoadFactOrders(w: Warehouse, fails: bool, unreadable: set<Table>)
    returns (r: Result<nat>)
    requires w.Valid()
    modifies w
    ensures w.Valid()
    ensures fails ==> r == Raised(BuildFactOrders) && w.Snapshot() == old(w.Snapshot())
    ensures !fails ==> w.Snapshot() == WithFactOrders(old(w.Snapshot()))
    ensures !fails ==> r == Ok(CountOrZero(w.Snapshot(), FactOrders, unreadable))
  {
    if fails {
      return Raised(BuildFactOrders);
    }
    ghost var before := w.Snapshot();
    FactLoadsKeepConsistency(before);
    var rows := FactOrderRows(w.Snapshot());
    w.factOrderItems := [];
    w.factOrders := AssignKeys(rows, w.orderKeySeq);
    w.orderKeySeq := w.orderKeySeq + |rows|;
    assert w.Snapshot() == WithFactOrders(before);
    var n := w.TableCount(FactOrders, unreadable);
    r := Ok(n);
  }

  /** `load_fact_order_items`: one batch, then the count of the table. */
  method LoadFactOrderItems(w: Warehouse, fails: bool, unreadable: set<Table>)
    returns (r: Result<nat>)
    requires w.Valid()
    modifies w
    ensures w.Valid()
    ensures fails ==> r == Raised(BuildFactOrderItems) && w.Snapshot() == old(w.Snapshot())
    ensures !fails ==> w.Snapshot() == WithFactOrderItems(old(w.Snapshot()))
    ensures !fails ==> r == Ok(CountOrZero(w.Snapshot(), FactOrderItems, unreadable))
  {
    if fails {
      return Raised(BuildFactOrderItems);
    }
    ghost var before := w.Snapshot();
    FactLoadsKeepConsistency(before);
    w.factOrderItems := ItemFacts(w.orderItems, w.factOrders, w.dimProducts);
    assert w.Snapshot() == WithFactOrderItems(before);
    var n := w.TableCount(FactOrderItems, unreadable);
    r := Ok(n);
  }

  // ---------------------------------------------------------------------------
  // load_all_facts
  // ---------------------------------------------------------------------------

  /** The database after the first `n` loads of `load_all_facts` succeeded. */
  function FactLoads(s: State, n: nat): State
    requires n <= 2
  {
    if n == 0 then s
    else if n == 1 then WithFactOrders(s)
    else WithFactOrderItems(WithFactOrders(s))
  }

  function FactStep(k: nat): Step
    requires k < 2
  {
    [BuildFactOrders, BuildFactOrderItems][k]
  }

  /** How many fact loads run to completion: those before the first one that raises. */
  function CompletedFactLoads(failing: set<Step>): (n: nat)
    ensures n <= 2
    ensures n > 0 <==> BuildFactOrders !in failing
    ensures n > 1 <==> BuildFactOrders !in failing && BuildFactOrderItems !in failing
  {
    if BuildFactOrders in failing then 0
    else if BuildFactOrderItems in failing then 1
    else 2
  }

  /** The `results` dictionary of a `load_all_facts` in which both loads succeeded. */
  function FactResults(s: State, unreadable: set<Table>): seq<Entry> {
    [Entry("fact_orders", CountOrZero(s, FactOrders, unreadable))]
    + [Entry("fact_order_items", CountOrZero(s, FactOrderItems, unreadable))]
  }

  /**
   * After both loads the fact tables are functions of staging and the
   * dimensions, and nothing else changed apart from the `order_key` sequence.
   */
  lemma AllFactsLoaded(s: State)
    ensures var t := FactLoads(s, 2);
      && Rows(t.factOrders) == FactOrderRows(s)
      && t.factOrderItems == ItemFacts(s.orderItems, t.factOrders, s.dimProducts)
      && t.orderKeySeq == s.orderKeySeq + |FactOrderRows(s)|
      && t.(factOrders := s.factOrders, factOrderItems := s.factOrderItems, orderKeySeq := s.orderKeySeq) == s
  {
  }

  /** Loading `fact_order_items` leaves the count of `fact_orders` as it was. */
  lemma FactOrderCountKept(s: State, unreadable: set<Table>)
    ensures CountOrZero(WithFactOrderItems(s), FactOrders, unreadable) == CountOrZero(s, FactOrders, unreadable)
  {
  }

  /**
   * `load_all_facts`: orders, then items. An exception ends it at once;
   * otherwise it returns the two table names with their counts, in that order.
   */
  method LoadAllFacts(w: Warehouse, failing: set<Step>, unreadable: set<Table>)
    returns (r: Result<seq<Entry>>)
    requires w.Valid()
    modifies w
    ensures w.Valid()
    ensures w.Snapshot() == FactLoads(old(w.Snapshot()), CompletedFactLoads(failing))
    ensures CompletedFactLoads(failing) < 2 ==> r == Raised(FactStep(CompletedFactLoads(failing)))
    ensures CompletedFactLoads(failing) == 2 ==> r == Ok(FactResults(w.Snapshot(), unreadable))
  {
    ghost var s0 := w.Snapshot();
    var o := LoadFactOrders(w, BuildFactOrders in failing, unreadable);
    if o.Raised? {
      assert CompletedFactLoads(failing) == 0 && FactStep(0) == BuildFactOrders;
      return Raised(o.at);
    }
    ghost var s1 := w.Snapshot();
    assert s1 == FactLoads(s0, 1);
    var i := LoadFactOrderItems(w, BuildFactOrderItems in failing, unreadable);
    if i.Raised? {
      assert CompletedFactLoads(failing) == 1 && FactStep(1) == BuildFactOrderItems;
      return Raised(i.at);
    }
    assert CompletedFactLoads(failing) == 2;
    assert w.Snapshot() == WithFactOrderItems(s1) == FactLoads(s0, 2);
    FactOrderCountKept(s1, unreadable);
    r := Ok([Entry("fact_orders", o.value)] + [Entry("fact_order_items", i.value)]);
  }
}
