/**
 * The staging loader (`CSVLoader`): each CSV file is read whole, stamped with
 * provenance columns and written to its `staging` table, appending for
 * customers and replacing the table for products, orders and order items.
 *
 * The CSV contents arrive already parsed (column types as pandas infers
 * them); the clock readings of `datetime.now()` and the exceptions pandas or
 * the database may raise are parameters.
 */
module CsvToPostgres {
  import opened Relational
  import opened Calendar
  import opened Schema

  // ---------------------------------------------------------------------------
  // the CSV files
  // ---------------------------------------------------------------------------

  datatype CustomerCsv = CustomerCsv(
    customerId: int,
    firstName: Option<string>,
    lastName: Option<string>,
    email: string,
    registrationDate: Option<CalendarDate>,
    country: string)

  datatype ProductCsv = ProductCsv(productId: int, productName: string, category: string, price: Cents, cost: Cents)

  /** An orders row after `pd.to_datetime` has turned `order_date` into a timestamp. */
  datatype OrderCsv = OrderCsv(orderId: int, customerId: int, orderDate: Timestamp, status: string)

  /** An order items row; `orderItemId` is `None` when the file has no `order_item_id` column. */
  datatype OrderItemCsv = OrderItemCsv(orderItemId: Option<int>, orderId: int, productId: int, quantity: int, unitPrice: Cents)

  /** The four files `load_all` reads. */
  datatype SourceFiles = SourceFiles(
    customers: seq<CustomerCsv>,
    products: seq<ProductCsv>,
    orders: seq<OrderCsv>,
    orderItems: seq<OrderItemCsv>)

  /** The four readings of `datetime.now()`, one per load. */
  datatype LoadTimes = LoadTimes(customers: Timestamp, products: Timestamp, orders: Timestamp, orderItems: Timestamp)

  // ---------------------------------------------------------------------------
  // file names
  // ---------------------------------------------------------------------------

  /** `os.path.basename`: the part of the path after its last '/'. */
  function Basename(path: string): (b: string)
    ensures '/' !in b
    ensures |b| <= |path| && path[|path| - |b|..] == b
    ensures |b| < |path| ==> path[|path| - |b| - 1] == '/'
  {
    if path == [] then []
    else if path[|path| - 1] == '/' then []
    else
      var b := Basename(path[..|path| - 1]) + [path[|path| - 1]];
      assert path == path[..|path| - 1] + [path[|path| - 1]];
      b
  }

  /** The base name of `f"{data_dir}/{name}"` is `name`, whatever the directory. */
  lemma {:induction false} BasenameOfJoin(dir: string, name: string)
    requires '/' !in name
    ensures Basename(dir + "/" + name) == name
  {
    if name == [] {
    } else {
      var shorter := name[..|name| - 1];
      var path := dir + "/" + name;
      assert path[..|path| - 1] == dir + "/" + shorter;
      assert path[|path| - 1] == name[|name| - 1];
      assert name == shorter + [name[|name| - 1]];
      BasenameOfJoin(dir, shorter);
    }
  }

  // ---------------------------------------------------------------------------
  // provenance stamping
  // ---------------------------------------------------------------------------

  /** The CSV columns of a staged customer, without the provenance columns. */
  function CustomerContent(r: StagedCustomer): CustomerCsv {
    CustomerCsv(r.customerId, r.firstName, r.lastName, r.email, r.registrationDate, r.country)
  }

  /** `df['load_timestamp'] = ...; df['source_file'] = ...` for one customer row. */
  function StampCustomer(c: CustomerCsv, at: Timestamp, file: string): (r: StagedCustomer)
    ensures CustomerContent(r) == c
    ensures r.loadTimestamp == at && r.sourceFile == file
  {
    StagedCustomer(c.customerId, c.firstName, c.lastName, c.email, c.registrationDate, c.country, at, file)
  }

  function ProductContent(r: StagedProduct): ProductCsv {
    ProductCsv(r.productId, r.productName, r.category, r.price, r.cost)
  }

  function StampProduct(c: ProductCsv, at: Timestamp): (r: StagedProduct)
    ensures ProductContent(r) == c && r.loadTimestamp == at
  {
    StagedProduct(c.productId, c.productName, c.category, c.price, c.cost, at)
  }

  function OrderContent(r: StagedOrder): OrderCsv {
    OrderCsv(r.orderId, r.customerId, r.orderDate, r.status)
  }

  function StampOrder(c: OrderCsv, at: Timestamp): (r: StagedOrder)
    ensures OrderContent(r) == c && r.loadTimestamp == at
  {
    StagedOrder(c.orderId, c.customerId, c.orderDate, c.status, at)
  }

  /** A staged order item with the `order_item_id` column put back. */
  function RestoreOrderItem(r: StagedOrderItem, orderItemId: Option<int>): OrderItemCsv {
    OrderItemCsv(orderItemId, r.orderId, r.productId, r.quantity, r.unitPrice)
  }

  /**
   * Stamps one order item row and drops its `order_item_id` column: putting
   * the dropped value back gives the CSV row again, so no other column is lost.
   */
  function StampOrderItem(c: OrderItemCsv, at: Timestamp): (r: StagedOrderItem)
    ensures RestoreOrderItem(r, c.orderItemId) == c && r.loadTimestamp == at
  {
    StagedOrderItem(c.orderId, c.productId, c.quantity, c.unitPrice, at)
  }

  function StampCustomers(rows: seq<CustomerCsv>, at: Timestamp, file: string): (r: seq<StagedCustomer>)
    ensures |r| == |rows|
    ensures forall i :: 0 <= i < |r| ==> r[i] == StampCustomer(rows[i], at, file)
  {
    seq(|rows|, i requires 0 <= i < |rows| => StampCustomer(rows[i], at, file))
  }

  function StampProducts(rows: seq<ProductCsv>, at: Timestamp): (r: seq<StagedProduct>)
    ensures |r| == |rows|
    ensures forall i :: 0 <= i < |r| ==> r[i] == StampProduct(rows[i], at)
  {
    seq(|rows|, i requires 0 <= i < |rows| => StampProduct(rows[i], at))
  }

  function StampOrders(rows: seq<OrderCsv>, at: Timestamp): (r: seq<StagedOrder>)
    ensures |r| == |rows|
    ensures forall i :: 0 <= i < |r| ==> r[i] == StampOrder(rows[i], at)
  {
    seq(|rows|, i requires 0 <= i < |rows| => StampOrder(rows[i], at))
  }

  function StampOrderItems(rows: seq<OrderItemCsv>, at: Timestamp): (r: seq<StagedOrderItem>)
    ensures |r| == |rows|
    ensures forall i :: 0 <= i < |r| ==> r[i] == StampOrderItem(rows[i], at)
  {
    seq(|rows|, i requires 0 <= i < |rows| => StampOrderItem(rows[i], at))
  }

  // ---------------------------------------------------------------------------
  // the write policy, as transitions of the database state
  // ---------------------------------------------------------------------------

  /** The four loads of `load_all`, in the order it runs them. */
  function LoadStep(k: nat): Step
    requires k < 4
  {
    [StageCustomers, StageProducts, StageOrders, StageOrderItems][k]
  }

  /** The file `load_all` reads for load `k`. */
  function FileName(k: nat): string
    requires k < 4
  {
    ["customers.csv", "products.csv", "orders.csv", "order_items.csv"][k]
  }

  /** The path `load_all` passes to load `k`. */
  function CsvPath(dataDir: string, k: nat): string
    requires k < 4
  {
    dataDir + "/" + FileName(k)
  }

  /**
   * The database after load `k` of `load_all` succeeded: customers are
   * appended (`if_exists='append'`), the other three tables replaced
   * (`if_exists='replace'`). No mart table changes.
   */
  function AfterLoad(s: State, k: nat, files: SourceFiles, dataDir: string, times: LoadTimes): (t: State)
    requires k < 4
    ensures t.(customers := s.customers, products := s.products, orders := s.orders, orderItems := s.orderItems) == s
    ensures k == 0 ==> |t.customers| == |s.customers| + |files.customers| && t.customers[..|s.customers|] == s.customers
    ensures k != 0 ==> t.customers == s.customers
    ensures k == 1 ==> |t.products| == |files.products|
    ensures k != 1 ==> t.products == s.products
    ensures k == 2 ==> |t.orders| == |files.orders|
    ensures k != 2 ==> t.orders == s.orders
    ensures k == 3 ==> |t.orderItems| == |files.orderItems|
    ensures k != 3 ==> t.orderItems == s.orderItems
  {
    if k == 0 then s.(customers := s.customers + StampCustomers(files.customers, times.customers, Basename(CsvPath(dataDir, 0))))
    else if k == 1 then s.(products := StampProducts(files.products, times.products))
    else if k == 2 then s.(orders := StampOrders(files.orders, times.orders))
    else s.(orderItems := StampOrderItems(files.orderItems, times.orderItems))
  }

  /** The database after the first `n` loads of `load_all` succeeded. */
  function AfterLoads(s: State, n: nat, files: SourceFiles, dataDir: string, times: LoadTimes): (t: State)
    requires n <= 4
    ensures |s.customers| <= |t.customers| && t.customers[..|s.customers|] == s.customers
    ensures n == 0 ==> t.customers == s.customers
    ensures n <= 1 ==> t.products == s.products
    ensures n <= 2 ==> t.orders == s.orders
    ensures n <= 3 ==> t.orderItems == s.orderItems
  {
    if n == 0 then s else AfterLoad(AfterLoads(s, n - 1, files, dataDir, times), n - 1, files, dataDir, times)
  }

  /** How many loads of `load_all` run to completion: those before the first one that raises. */
  function CompletedLoads(failing: set<Step>): (n: nat)
    ensures n <= 4
    ensures forall k :: 0 <= k < n ==> LoadStep(k) !in failing
    ensures n < 4 ==> LoadStep(n) in failing
  {
    if StageCustomers in failing then 0
    else if StageProducts in failing then 1
    else if StageOrders in failing then 2
    else if StageOrderItems in failing then 3
    else 4
  }

  /** The `results` dictionary of a `load_all` in which every load succeeded. */
  function LoadResults(files: SourceFiles): seq<Entry> {
    [Entry("customers", |files.customers|)] + [Entry("products", |files.products|)]
    + [Entry("orders", |files.orders|)] + [Entry("order_items", |files.orderItems|)]
  }

  /**
   * After the loads, the staging tables hold what the policy says: the
   * customers appended behind the old rows, every customer row stamped with
   * its file's base name, the other tables exactly the new rows, and nothing
   * else changed.
   */
  lemma {:induction false} AllLoads(s: State, files: SourceFiles, dataDir: string, times: LoadTimes)
    ensures var t := AfterLoads(s, 4, files, dataDir, times);
      && t == s.(customers := t.customers, products := t.products, orders := t.orders, orderItems := t.orderItems)
      && |t.customers| == |s.customers| + |files.customers|
      && t.customers[..|s.customers|] == s.customers
      && (forall i :: 0 <= i < |files.customers| ==>
            var r := t.customers[|s.customers| + i];
            CustomerContent(r) == files.customers[i] && r.loadTimestamp == times.customers && r.sourceFile == "customers.csv")
      && t.products == StampProducts(files.products, times.products)
      && t.orders == StampOrders(files.orders, times.orders)
      && t.orderItems == StampOrderItems(files.orderItems, times.orderItems)
  {
    BasenameOfJoin(dataDir, "customers.csv");
    var added := StampCustomers(files.customers, times.customers, "customers.csv");
    var s1 := s.(customers := s.customers + added);
    assert AfterLoads(s, 1, files, dataDir, times) == s1;
    var s2 := s1.(products := StampProducts(files.products, times.products));
    assert AfterLoads(s, 2, files, dataDir, times) == s2;
    var s3 := s2.(orders := StampOrders(files.orders, times.orders));
    assert AfterLoads(s, 3, files, dataDir, times) == s3;
    var s4 := s3.(orderItems := StampOrderItems(files.orderItems, times.orderItems));
    assert AfterLoads(s, 4, files, dataDir, times) == s4;
    forall i | 0 <= i < |files.customers|
      ensures s4.customers[|s.customers| + i] == added[i]
    {
    }
  }

  /** The loads touch only the staging tables: every mart table and key sequence is as before. */
  lemma {:induction false} LoadsKeepMarts(s: State, n: nat, files: SourceFiles, dataDir: string, times: LoadTimes)
    requires n <= 4
    ensures var t := AfterLoads(s, n, files, dataDir, times);
      && t.dimCustomers == s.dimCustomers && t.dimProducts == s.dimProducts && t.dimDate == s.dimDate
      && t.factOrders == s.factOrders && t.factOrderItems == s.factOrderItems
      && t.customerKeySeq == s.customerKeySeq && t.productKeySeq == s.productKeySeq
      && t.orderKeySeq == s.orderKeySeq
  {
    if n > 0 {
      LoadsKeepMarts(s, n - 1, files, dataDir, times);
    }
  }

  lemma LoadsKeepConsistency(s: State, n: nat, files: SourceFiles, dataDir: string, times: LoadTimes)
    requires n <= 4 && Consistent(s)
    ensures Consistent(AfterLoads(s, n, files, dataDir, times))
  {
    LoadsKeepMarts(s, n, files, dataDir, times);
  }

  // ---------------------------------------------------------------------------
  // the loaders
  // ---------------------------------------------------------------------------

  /** `load_customers`: appends the stamped rows and returns how many there were. */
  method LoadCustomers(w: Warehouse, rows: seq<CustomerCsv>, csvPath: string, now: Timestamp, fails: bool)
    returns (r: Result<nat>)
    requires w.Valid()
    modifies w
    ensures w.Valid()
    ensures fails ==> r == Raised(StageCustomers) && w.Snapshot() == old(w.Snapshot())
    ensures !fails ==> r == Ok(|rows|)
    ensures !fails ==> w.Snapshot() == old(w.Snapshot()).(customers := old(w.customers) + StampCustomers(rows, now, Basename(csvPath)))
  {
    if fails {
      return Raised(StageCustomers);
    }
    ghost var before := w.Snapshot();
    var frame := StampCustomers(rows, now, Basename(csvPath));
    w.customers := w.customers + frame;
    assert w.Snapshot() == before.(customers := before.customers + frame);
    r := Ok(|frame|);
  }

  /** `load_products`: replaces the table with the stamped rows. */
  method LoadProducts(w: Warehouse, rows: seq<ProductCsv>, now: Timestamp, fails: bool)
    returns (r: Result<nat>)
    requires w.Valid()
    modifies w
    ensures w.Valid()
    ensures fails ==> r == Raised(StageProducts) && w.Snapshot() == old(w.Snapshot())
    ensures !fails ==> r == Ok(|rows|)
    ensures !fails ==> w.Snapshot() == old(w.Snapshot()).(products := StampProducts(rows, now))
  {
    if fails {
      return Raised(StageProducts);
    }
    var frame := StampProducts(rows, now);
    w.products := frame;
    r := Ok(|frame|);
  }

  /** `load_orders`: replaces the table with the stamped rows. */
  method LoadOrders(w: Warehouse, rows: seq<OrderCsv>, now: Timestamp, fails: bool)
    returns (r: Result<nat>)
    requires w.Valid()
    modifies w
    ensures w.Valid()
    ensures fails ==> r == Raised(StageOrders) && w.Snapshot() == old(w.Snapshot())
    ensures !fails ==> r == Ok(|rows|)
    ensures !fails ==> w.Snapshot() == old(w.Snapshot()).(orders := StampOrders(rows, now))
  {
    if fails {
      return Raised(StageOrders);
    }
    var frame := StampOrders(rows, now);
    w.orders := frame;
    r := Ok(|frame|);
  }

  /** `load_order_items`: drops `order_item_id`, then replaces the table with the stamped rows. */
  method LoadOrderItems(w: Warehouse, rows: seq<OrderItemCsv>, now: Timestamp, fails: bool)
    returns (r: Result<nat>)
    requires w.Valid()
    modifies w
    ensures w.Valid()
    ensures fails ==> r == Raised(StageOrderItems) && w.Snapshot() == old(w.Snapshot())
    ensures !fails ==> r == Ok(|rows|)
    ensures !fails ==> w.Snapshot() == old(w.Snapshot()).(orderItems := StampOrderItems(rows, now))
  {
    if fails {
      return Raised(StageOrderItems);
    }
    var frame := StampOrderItems(rows, now);
    w.orderItems := frame;
    r := Ok(|frame|);
  }

  /**
   * `load_all`: the four loads in order. The first load that raises ends it:
   * the exception propagates, the later loads do not run, and the tables the
   * earlier loads wrote stay written.
   */
  method LoadAll(w: Warehouse, files: SourceFiles, dataDir: string, times: LoadTimes, failing: set<Step>)
    returns (r: Result<seq<Entry>>)
    requires w.Valid()
    modifies w
    ensures w.Valid()
    ensures w.Snapshot() == AfterLoads(old(w.Snapshot()), CompletedLoads(failing), files, dataDir, times)
    ensures CompletedLoads(failing) < 4 ==> r == Raised(LoadStep(CompletedLoads(failing)))
    ensures CompletedLoads(failing) == 4 ==> r == Ok(LoadResults(files))
  {
    ghost var s0 := w.Snapshot();
    var c := LoadCustomers(w, files.customers, CsvPath(dataDir, 0), times.customers, StageCustomers in failing);
    if c.Raised? {
      return Raised(c.at);
    }
    var results := [Entry("customers", c.value)];
    assert w.Snapshot() == AfterLoads(s0, 1, files, dataDir, times);
    var p := LoadProducts(w, files.products, times.products, StageProducts in failing);
    if p.Raised? {
      return Raised(p.at);
    }
    results := results + [Entry("products", p.value)];
    assert w.Snapshot() == AfterLoads(s0, 2, files, dataDir, times);
    var o := LoadOrders(w, files.orders, times.orders, StageOrders in failing);
    if o.Raised? {
      return Raised(o.at);
    }
    results := results + [Entry("orders", o.value)];
    assert w.Snapshot() == AfterLoads(s0, 3, files, dataDir, times);
    var i := LoadOrderItems(w, files.orderItems, times.orderItems, StageOrderItems in failing);
    if i.Raised? {
      return Raised(i.at);
    }
    results := results + [Entry("order_items", i.value)];
    r := Ok(results);
  }
}
