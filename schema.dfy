/**
 * The warehouse database: the four `staging` tables the CSV loader writes, the
 * five `marts` tables the transformers build, and the SERIAL key sequences of
 * the surrogate-keyed mart tables.
 *
 * The table definitions themselves are not part of this model; the columns are
 * those the INSERT and SELECT statements name. The foreign keys assumed by
 * `TRUNCATE ... CASCADE` are fact_orders -> dim_customers, fact_orders ->
 * dim_date, fact_order_items -> fact_orders and fact_order_items -> dim_products.
 */
module Schema {
  import opened Relational
  import opened Calendar

  /** Money in whole cents (the doubles of the CSV files, taken exactly). */
  type Cents = int

  // ---------------------------------------------------------------------------
  // staging rows: the CSV columns plus the loader's provenance columns
  // ---------------------------------------------------------------------------

  datatype StagedCustomer = StagedCustomer(
    customerId: int,
    firstName: Option<string>,
    lastName: Option<string>,
    email: string,
    registrationDate: Option<CalendarDate>,
    country: string,
    loadTimestamp: Timestamp,
    sourceFile: string)

  datatype StagedProduct = StagedProduct(
    productId: int,
    productName: string,
    category: string,
    price: Cents,
    cost: Cents,
    loadTimestamp: Timestamp)

  datatype StagedOrder = StagedOrder(
    orderId: int,
    customerId: int,
    orderDate: Timestamp,
    status: string,
    loadTimestamp: Timestamp)

  datatype StagedOrderItem = StagedOrderItem(
    orderId: int,
    productId: int,
    quantity: int,
    unitPrice: Cents,
    loadTimestamp: Timestamp)

  // ---------------------------------------------------------------------------
  // mart rows
  // ---------------------------------------------------------------------------

  datatype Segment = New | Regular | Loyal

  /** A row of `marts.dim_customers` without its surrogate `customer_key`. */
  datatype CustomerDim = CustomerDim(
    customerId: int,
    firstName: Option<string>,
    lastName: Option<string>,
    fullName: Option<string>,
    email: string,
    country: string,
    registrationDate: Option<CalendarDate>,
    customerSegment: Segment,
    isActive: bool,
    validFrom: Timestamp,
    isCurrent: bool)

  /** A row of `marts.dim_products` without its surrogate `product_key`. */
  datatype ProductDim = ProductDim(
    productId: int,
    productName: string,
    category: string,
    price: Cents,
    cost: Cents,
    marginPercent: Option<real>,
    validFrom: Timestamp,
    isCurrent: bool)

  /** A row of `marts.dim_date` (the week number and the month and day names are not modelled). */
  datatype DateDim = DateDim(
    dateKey: int,
    date: CalendarDate,
    year: int,
    quarter: int,
    month: int,
    dayOfMonth: int,
    dayOfWeek: int,
    isWeekend: bool,
    isHoliday: bool)

  /** A row of `marts.fact_orders` without its surrogate `order_key`. */
  datatype FactOrder = FactOrder(
    orderId: int,
    customerKey: Option<nat>,
    orderDateKey: int,
    orderDate: Timestamp,
    status: string,
    totalItems: int,
    totalAmount: Cents,
    totalCost: Cents,
    profit: Cents)

  /** A row of `marts.fact_order_items`. */
  datatype FactOrderItem = FactOrderItem(
    orderKey: nat,
    productKey: nat,
    orderId: int,
    productId: int,
    quantity: int,
    unitPrice: Cents,
    totalPrice: Cents,
    unitCost: Cents,
    totalCost: Cents,
    profit: Cents)

  // ---------------------------------------------------------------------------
  // tables, fallible steps, results
  // ---------------------------------------------------------------------------

  datatype Table =
    | StagingCustomers | StagingProducts | StagingOrders | StagingOrderItems
    | DimCustomers | DimProducts | DimDate | FactOrders | FactOrderItems

  function QualifiedName(t: Table): string {
    match t
    case StagingCustomers => "staging.customers"
    case StagingProducts => "staging.products"
    case StagingOrders => "staging.orders"
    case StagingOrderItems => "staging.order_items"
    case DimCustomers => "marts.dim_customers"
    case DimProducts => "marts.dim_products"
    case DimDate => "marts.dim_date"
    case FactOrders => "marts.fact_orders"
    case FactOrderItems => "marts.fact_order_items"
  }

  /** The database writes that can raise: one per loader and transformer call. */
  datatype Step =
    | StageCustomers | StageProducts | StageOrders | StageOrderItems
    | BuildDimCustomers | BuildDimProducts | BuildDimDate
    | BuildFactOrders | BuildFactOrderItems

  /** A returned value, or the exception raised at a step. */
  datatype Result<+T> = Ok(value: T) | Raised(at: Step)

  // ---------------------------------------------------------------------------
  // the database state
  // ---------------------------------------------------------------------------

  /**
   * The contents of the database: every table and the next value of each of
   * the three SERIAL sequences (`customer_key`, `product_key`, `order_key`).
   * TRUNCATE does not restart a sequence, so keys keep increasing across loads.
   */
  datatype State = State(
    customers: seq<StagedCustomer>,
    products: seq<StagedProduct>,
    orders: seq<StagedOrder>,
    orderItems: seq<StagedOrderItem>,
    dimCustomers: seq<Keyed<CustomerDim>>,
    dimProducts: seq<Keyed<ProductDim>>,
    dimDate: seq<DateDim>,
    factOrders: seq<Keyed<FactOrder>>,
    factOrderItems: seq<FactOrderItem>,
    customerKeySeq: nat,
    productKeySeq: nat,
    orderKeySeq: nat)

  /** Every customer key a fact order carries names a row of `dim_customers`. */
  predicate CustomerKeysResolve(factOrders: seq<Keyed<FactOrder>>, dimCustomers: seq<Keyed<CustomerDim>>) {
    forall i :: 0 <= i < |factOrders| && factOrders[i].row.customerKey.Some? ==>
      HasKey(dimCustomers, factOrders[i].row.customerKey.value)
  }

  /** Every fact order item names a row of `fact_orders` and a row of `dim_products`. */
  predicate ItemKeysResolve(items: seq<FactOrderItem>, factOrders: seq<Keyed<FactOrder>>, dimProducts: seq<Keyed<ProductDim>>) {
    forall i :: 0 <= i < |items| ==>
      HasKey(factOrders, items[i].orderKey) && HasKey(dimProducts, items[i].productKey)
  }

  /**
   * What the database guarantees of every state: surrogate keys are unique and
   * were drawn from their sequence, and the foreign keys of the two fact tables
   * resolve (a NULL `customer_key` is allowed).
   */
  predicate Consistent(s: State) {
    && KeysUnique(s.dimCustomers) && KeysBelow(s.dimCustomers, s.customerKeySeq)
    && KeysUnique(s.dimProducts) && KeysBelow(s.dimProducts, s.productKeySeq)
    && KeysUnique(s.factOrders) && KeysBelow(s.factOrders, s.orderKeySeq)
    && CustomerKeysResolve(s.factOrders, s.dimCustomers)
    && ItemKeysResolve(s.factOrderItems, s.factOrders, s.dimProducts)
  }

  function RowCount(s: State, t: Table): nat {
    match t
    case StagingCustomers => |s.customers|
    case StagingProducts => |s.products|
    case StagingOrders => |s.orders|
    case StagingOrderItems => |s.orderItems|
    case DimCustomers => |s.dimCustomers|
    case DimProducts => |s.dimProducts|
    case DimDate => |s.dimDate|
    case FactOrders => |s.factOrders|
    case FactOrderItems => |s.factOrderItems|
  }

  /**
   * `db.get_table_count(schema, table)`: the row count, or 0 when the count
   * query raises (the tables in `unreadable`).
   */
  function CountOrZero(s: State, t: Table, unreadable: set<Table>): (n: nat)
    ensures t in unreadable ==> n == 0
    ensures t !in unreadable ==> n == RowCount(s, t)
  {
    if t in unreadable then 0 else RowCount(s, t)
  }

  /** A fresh database: empty tables, sequences at their start value 1. */
  function EmptyState(): (s: State)
    ensures Consistent(s)
  {
    State([], [], [], [], [], [], [], [], [], 1, 1, 1)
  }

  /** The PostgreSQL database the pipeline writes to, updated in place by every load. */
  class Warehouse {
    var customers: seq<StagedCustomer>
    var products: seq<StagedProduct>
    var orders: seq<StagedOrder>
    var orderItems: seq<StagedOrderItem>
    var dimCustomers: seq<Keyed<CustomerDim>>
    var dimProducts: seq<Keyed<ProductDim>>
    var dimDate: seq<DateDim>
    var factOrders: seq<Keyed<FactOrder>>
    var factOrderItems: seq<FactOrderItem>
    var customerKeySeq: nat
    var productKeySeq: nat
    var orderKeySeq: nat

    /** The current contents of the database as a value. */
    function Snapshot(): State
      reads this
    {
      State(customers, products, orders, orderItems, dimCustomers, dimProducts, dimDate,
            factOrders, factOrderItems, customerKeySeq, productKeySeq, orderKeySeq)
    }

    predicate Valid()
      reads this
    {
      Consistent(Snapshot())
    }

    constructor ()
      ensures Snapshot() == EmptyState() && Valid()
    {
      customers, products, orders, orderItems := [], [], [], [];
      dimCustomers, dimProducts, dimDate := [], [], [];
      factOrders, factOrderItems := [], [];
      customerKeySeq, productKeySeq, orderKeySeq := 1, 1, 1;
    }

    /** `db.get_table_count`: reads one count, reporting 0 for a table whose count query raises. */
    method TableCount(t: Table, unreadable: set<Table>) returns (n: nat)
      ensures n == CountOrZero(Snapshot(), t, unreadable)
    {
      if t in unreadable {
        n := 0;
      } else {
        match t
        case StagingCustomers => n := |customers|;
        case StagingProducts => n := |products|;
        case StagingOrders => n := |orders|;
        case StagingOrderItems => n := |orderItems|;
        case DimCustomers => n := |dimCustomers|;
        case DimProducts => n := |dimProducts|;
        case DimDate => n := |dimDate|;
        case FactOrders => n := |factOrders|;
        case FactOrderItems => n := |factOrderItems|;
      }
    }
  }
}
