# E-commerce warehouse ETL, modelled in Dafny

This project models the batch ETL pipeline of a small e-commerce data
warehouse on PostgreSQL. The pipeline runs four stages in order:

1. It copies four CSV files (customers, products, orders, order items) into
   the `staging` schema. Each row gets provenance stamps. Customers are
   appended; the other three tables are replaced.
2. It rebuilds the three dimensions of the `marts` schema: `dim_customers`,
   `dim_products` and `dim_date`. Each one is a `TRUNCATE ... CASCADE`
   followed by an `INSERT ... SELECT DISTINCT` over staging.
3. It rebuilds the two fact tables. `fact_orders` is a grouped aggregate over
   a chain of LEFT JOINs. `fact_order_items` is an inner join of the staging
   items with `fact_orders` and `dim_products`.
4. It reads the row counts of the nine tables and checks two data-quality
   conditions.

The orchestrator runs these stages after a connection test. The database
URL is built from environment settings with defaults.

The SQL is modelled with bag semantics. A table is a Dafny sequence of rows
whose order nothing relies on. Duplicate rows are kept, and only
`SELECT DISTINCT` removes them:

- SQL `NULL` is `Option`.
- `SUM` is NULL exactly when every summed value is NULL.
- `COALESCE`, `NULLIF` and the LEFT JOIN's NULL padding are written out.
- The joined relation that `fact_orders` groups is built explicitly, one row
  per combination the joins produce.
- Money is integer cents.

The database is the class `Schema.Warehouse`. It has one `seq` field per
table and one counter per SERIAL key sequence. Its `Snapshot()` is a value
of the datatype `State`. Each loader is a method that `modifies` the
warehouse. The new snapshot is tied to a pure transition function of the
old one (`WithDimCustomers`, `WithFactOrders`, …), and the lemmas are
stated about those functions.

Things the pipeline cannot control are inputs to the model:

- the clock (the current date's cut-offs and the load timestamps);
- the CSV contents;
- whether the connection is up;
- which load raises an exception;
- which tables' count queries fail (the same tables for every count in a run).

Modules, one file each:

| file | module | models |
|---|---|---|
| relational.dfy | Relational | NULL, DISTINCT, SUM, COALESCE, surrogate keys, result dictionaries |
| calendar.dfy | Calendar | DATE/TIMESTAMP, `TO_CHAR(d,'YYYYMMDD')` keys, quarter, day of week |
| schema.dfy | Schema | the nine tables' rows, the warehouse, `get_table_count` |
| csv_to_postgres.dfy | CsvToPostgres | `CSVLoader` |
| load_dimensions.dfy | LoadDimensions | `DimensionLoader` |
| load_facts.dfy | LoadFacts | `FactLoader` |
| run_pipeline.dfy | RunPipeline | `ETLPipeline` and `main` |
| config.dfy | Config | `Config` |

## Model

| member | source | states |
|---|---|---|
| Schema.CountOrZero | src/utils/db_connection.py:57-66 | the count of a table, or 0 when its count query raises |
| Schema.Warehouse.TableCount | src/utils/db_connection.py:57-66 | the method returns that same value for the current tables and changes nothing |
| Relational.Distinct | src/transformers/load_dimensions.py:33 | `SELECT DISTINCT` keeps exactly the rows of its input, with no duplicates and no more rows than the input |
| Relational.DistinctAbsorbs | src/transformers/load_dimensions.py:33 | adding rows already present does not change the DISTINCT result |
| Relational.DistinctCount | src/transformers/load_dimensions.py:118 | DISTINCT yields as many rows as there are distinct input values |
| Relational.AssignKeys | src/transformers/load_facts.py:20-30 | SERIAL keys: the rows are kept in order; the keys are unique, at least the sequence's next value and below it plus the row count |
| Relational.OrNull | src/transformers/load_facts.py:42-45 | LEFT JOIN padding: no match gives one NULL; otherwise the matches themselves |
| Relational.AddNullable | src/transformers/load_facts.py:37-39 | SQL `SUM` accumulation: NULL only when both sides are NULL; otherwise the sum of the non-NULL sides |
| Relational.Sum | src/transformers/load_facts.py:37-39 | `SUM` is NULL exactly when every value is NULL |
| Relational.SumConcat | src/transformers/load_facts.py:37-39 | the `SUM` of two concatenated columns is the NULL-aware sum of their `SUM`s |
| Relational.Coalesce | src/transformers/load_facts.py:37-40 | `COALESCE(x, d)` is `d` for NULL and `x` otherwise |
| Relational.TotalRowsConcat | src/run_pipeline.py:48 | `sum(results.values())` over two concatenated result lists adds up |
| Calendar.DateKeyRoundTrip | src/transformers/load_dimensions.py:119 | the YYYYMMDD key decodes back to its date |
| Calendar.DateKeyInjective | src/transformers/load_dimensions.py:119 | two dates with one key are the same date |
| Calendar.DateKeyOrder | src/transformers/load_dimensions.py:119 | keys sort exactly like the dates |
| Calendar.Quarter | src/transformers/load_dimensions.py:122 | the quarter is 1–4 and contains the month |
| Calendar.DayOfWeek | src/transformers/load_dimensions.py:127 | `EXTRACT(DOW)` lies in 0–6; its values are pinned by `DayOfWeekAnchors` and `DayOfWeekSuccessor` |
| Calendar.DayOfWeekNextDay | src/transformers/load_dimensions.py:127 | the next day of a month has the next day of the week |
| Calendar.NextDay | src/transformers/load_dimensions.py:127 | the day after a date is a later date, and it is the first of a month exactly when the date is the last of its month |
| Calendar.LeapTerms | src/transformers/load_dimensions.py:127 | the year term of the weekday formula grows by 2 from a leap year's predecessor and by 1 otherwise |
| Calendar.MonthOffsetStep | src/transformers/load_dimensions.py:127 | from a month's last day to the next month's first, the weekday offset moves by the month's length, up to whole weeks |
| Calendar.DayOfWeekSuccessor | src/transformers/load_dimensions.py:127 | the day after any date, across month and year ends too, has the next day of the week |
| Calendar.DayOfWeekAnchors | src/transformers/load_dimensions.py:127 | 2024-01-01 is a Monday (1), 2024-01-06 a Saturday (6) and a weekend, 2000-01-01 a Saturday, 1970-01-01 a Thursday |
| CsvToPostgres.Basename | src/loaders/csv_to_postgres.py:26 | `os.path.basename`: the suffix of the path after its last '/', containing no '/' |
| CsvToPostgres.BasenameOfJoin | src/loaders/csv_to_postgres.py:120 | the basename of `data_dir + "/" + name` is `name` |
| CsvToPostgres.StampCustomer | src/loaders/csv_to_postgres.py:25-26 | the CSV content is kept, and the row gets the load timestamp and the source file name |
| CsvToPostgres.StampProduct | src/loaders/csv_to_postgres.py:48 | the CSV content is kept, and the row gets the load timestamp |
| CsvToPostgres.StampOrder | src/loaders/csv_to_postgres.py:69-70 | the CSV content is kept, and the row gets the load timestamp |
| CsvToPostgres.StampOrderItem | src/loaders/csv_to_postgres.py:91-95 | every column except `order_item_id` is kept (the CSV row is restored from it and that id), and the row gets the load timestamp |
| CsvToPostgres.StampCustomers | src/loaders/csv_to_postgres.py:22-26 | one stamped row per CSV row, in order, all with the same timestamp and file |
| CsvToPostgres.StampProducts | src/loaders/csv_to_postgres.py:47-48 | one stamped row per CSV row, in order |
| CsvToPostgres.StampOrders | src/loaders/csv_to_postgres.py:68-70 | one stamped row per CSV row, in order |
| CsvToPostgres.StampOrderItems | src/loaders/csv_to_postgres.py:90-95 | one stamped row per CSV row, in order |
| CsvToPostgres.LoadCustomers | src/loaders/csv_to_postgres.py:17-41 | on success: `staging.customers` becomes the old rows followed by the stamped new rows, nothing else changes, and the result is the CSV row count; on an exception: nothing changes |
| CsvToPostgres.LoadProducts | src/loaders/csv_to_postgres.py:43-62 | on success: `staging.products` becomes exactly the stamped new rows, and the result is their count; on an exception: nothing changes |
| CsvToPostgres.LoadOrders | src/loaders/csv_to_postgres.py:64-84 | on success: `staging.orders` is replaced by the stamped rows; on an exception: nothing changes |
| CsvToPostgres.LoadOrderItems | src/loaders/csv_to_postgres.py:86-109 | on success: `staging.order_items` is replaced by the stamped rows without `order_item_id`; on an exception: nothing changes |
| CsvToPostgres.CompletedLoads | src/loaders/csv_to_postgres.py:119-123 | the loads that complete are exactly those before the first failing one |
| CsvToPostgres.AfterLoad | src/loaders/csv_to_postgres.py:17-109 | one load changes only its own staging table: customers keep their old rows as a prefix and grow by the CSV rows; the other tables get exactly the CSV row count; the marts are untouched |
| CsvToPostgres.AfterLoads | src/loaders/csv_to_postgres.py:119-123 | after the first n loads the old customers are still a prefix, and every table whose load was not reached keeps its old rows |
| CsvToPostgres.LoadAll | src/loaders/csv_to_postgres.py:111-137 | runs the loads in order and stops at the first exception, re-raising it; earlier writes stay; on success it returns the four table names with their counts |
| CsvToPostgres.AllLoads | src/loaders/csv_to_postgres.py:111-133 | after the four loads: customers are appended with `source_file` `customers.csv`, the other three tables are replaced, and the marts are untouched |
| CsvToPostgres.LoadsKeepMarts | src/loaders/csv_to_postgres.py:119-123 | any prefix of the loads leaves every mart table and key sequence unchanged |
| CsvToPostgres.LoadsKeepConsistency | src/loaders/csv_to_postgres.py:119-123 | the staging loads keep the foreign keys of the marts resolving |
| LoadDimensions.SegmentCutoffsAreStrict | src/transformers/load_dimensions.py:41-45 | a registration exactly on a cut-off falls to the younger segment; NULL gives 'New' |
| LoadDimensions.SegmentMonotone | src/transformers/load_dimensions.py:41-45 | an earlier registration never gets a younger segment |
| LoadDimensions.CustomerSegment | src/transformers/load_dimensions.py:41-45 | 'Loyal' iff registered before the one-year cut-off; 'Regular' iff registered before the six-month cut-off but not the one-year one; 'New' otherwise, including NULL |
| LoadDimensions.FullName | src/transformers/load_dimensions.py:37 | NULL iff a part is NULL; otherwise first name, one space, last name |
| LoadDimensions.SelectCustomer | src/transformers/load_dimensions.py:34-48 | the staging row's id, names, email, country and registration date are copied; `full_name` is `FullName` of the two parts (present iff both are) and `customer_segment` is `CustomerSegment` of the registration date ('Loyal' iff registered before the one-year cut-off); `is_active` and `is_current` true, `valid_from` the load timestamp |
| LoadDimensions.FullNameParts | src/transformers/load_dimensions.py:37 | `full_name` is NULL iff a part is NULL; otherwise it is first name, one space, last name, and both parts can be read back |
| LoadDimensions.SelectCustomers | src/transformers/load_dimensions.py:33-49 | the rows are exactly the SELECT list of the staging rows, with no duplicates |
| LoadDimensions.SelectCustomersNonEmpty | src/transformers/load_dimensions.py:33-49 | `dim_customers` is empty iff `staging.customers` is |
| LoadDimensions.DimCustomersReplaced | src/transformers/load_dimensions.py:17 | after the load, no row of the old `dim_customers` survives |
| LoadDimensions.DimCustomersFromStaging | src/transformers/load_dimensions.py:33-49 | each new row derives from a staging row; `is_active` and `is_current` are true; `valid_from` is the load timestamp |
| LoadDimensions.DimCustomersCoverStaging | src/transformers/load_dimensions.py:33-49 | every staging customer is represented |
| LoadDimensions.ReappendedCustomersCollapse | src/transformers/load_dimensions.py:33-49 | appending already-staged customer content again leaves `dim_customers` unchanged |
| LoadDimensions.DuplicateCustomerIdsSurvive | src/transformers/load_dimensions.py:33-49 | two staging rows with one `customer_id` but different attributes both reach `dim_customers` |
| LoadDimensions.WithDimCustomers | src/transformers/load_dimensions.py:17-49 | the table's rows become the DISTINCT selection of staging, both fact tables are emptied by the CASCADE, and the key sequence advances by the row count |
| LoadDimensions.Round2Error | src/transformers/load_dimensions.py:83 | `ROUND(x, 2)` moves a value by at most 0.005 |
| LoadDimensions.Round2Monotone | src/transformers/load_dimensions.py:83 | `ROUND(x, 2)` preserves order |
| LoadDimensions.Round2Exact | src/transformers/load_dimensions.py:83 | `ROUND(x, 2)` leaves two-decimal values unchanged |
| LoadDimensions.Round2 | src/transformers/load_dimensions.py:83 | the result has two decimals, keeps the sign of its argument and is within 0.005 of it |
| LoadDimensions.Round2HalfUp | src/transformers/load_dimensions.py:83 | a positive half-way value such as k.5 hundredths rounds up, away from zero, as PostgreSQL's numeric ROUND does |
| LoadDimensions.Round2HalfDown | src/transformers/load_dimensions.py:83 | a negative half-way value rounds down, away from zero |
| LoadDimensions.MarginPercent | src/transformers/load_dimensions.py:83 | the margin is NULL exactly when the price is 0 |
| LoadDimensions.MarginPercentBounds | src/transformers/load_dimensions.py:83 | the margin is within 0.005 of the exact percentage, and lies in 0–100 when 0 ≤ cost ≤ price |
| LoadDimensions.SelectProducts | src/transformers/load_dimensions.py:77-86 | the rows are exactly the SELECT list of the staging rows, with no duplicates |
| LoadDimensions.DimProductsCopyPrices | src/transformers/load_dimensions.py:78-83 | each row carries a staging product's id, price and cost unchanged, and its margin is NULL iff the price is 0 |
| LoadDimensions.SelectProduct | src/transformers/load_dimensions.py:78-85 | id, name, category, price and cost are copied; `margin_percent` is `MarginPercent` of price and cost, so NULL iff the price is 0 and otherwise within 0.005 of the exact margin; `valid_from` is the load timestamp and `is_current` true |
| LoadDimensions.WithDimProducts | src/transformers/load_dimensions.py:64-86 | the table's rows become the DISTINCT selection of staging, `fact_order_items` is emptied by the CASCADE, and the key sequence advances by the row count |
| LoadDimensions.DateRow | src/transformers/load_dimensions.py:118-133 | `date_key` is the YYYYMMDD key of the date; year, quarter, month, day of month and day of week are those of the date; weekend iff the day of week is 0 or 6; never a holiday |
| LoadDimensions.SelectDates | src/transformers/load_dimensions.py:118-134 | the rows are exactly the date rows of the order dates, with no duplicates |
| LoadDimensions.DimDateCoversOrderDates | src/transformers/load_dimensions.py:118-134 | every order date has a `dim_date` row |
| LoadDimensions.DimDateRowsFromOrders | src/transformers/load_dimensions.py:118-134 | every `dim_date` row is the row of an order date |
| LoadDimensions.DimDateKeysUnique | src/transformers/load_dimensions.py:118-134 | no two rows share a date or a `date_key` |
| LoadDimensions.DimDateCount | src/transformers/load_dimensions.py:118-134 | `dim_date` has one row per distinct order date |
| LoadDimensions.WithDimDate | src/transformers/load_dimensions.py:101-135 | `dim_date` becomes the DISTINCT date rows of the staged orders, and both fact tables are emptied by the CASCADE |
| LoadDimensions.DimensionLoadsKeepConsistency | src/transformers/load_dimensions.py:17-101 | each load keeps the foreign keys resolving, because the CASCADE empties the referencing facts |
| LoadDimensions.LoadDimCustomers | src/transformers/load_dimensions.py:11-56 | on success: the warehouse becomes `WithDimCustomers` of the old one, and the result is the `dim_customers` count; on an exception: nothing changes |
| LoadDimensions.LoadDimProducts | src/transformers/load_dimensions.py:58-93 | as above for `dim_products` (the CASCADE empties `fact_order_items`) |
| LoadDimensions.LoadDimDate | src/transformers/load_dimensions.py:95-142 | as above for `dim_date` (the CASCADE empties both fact tables) |
| LoadDimensions.CompletedDimensionLoads | src/transformers/load_dimensions.py:150-153 | at least k loads complete iff none of the first k raises, so the loads that complete are exactly those before the first failing one |
| LoadDimensions.LoadAllDimensions | src/transformers/load_dimensions.py:144-163 | customers, then products, then date; an exception ends it; on success it returns the three names with their counts |
| LoadDimensions.AllDimensionsLoaded | src/transformers/load_dimensions.py:150-153 | after all three loads each dimension is the selection from staging, both fact tables are empty and staging is unchanged |
| LoadFacts.CustomerMatchesMeaning | src/transformers/load_facts.py:42 | an order joins with key k iff a `dim_customers` row with key k has its customer id, and with NULL iff no row has it |
| LoadFacts.SubtractNullable | src/transformers/load_facts.py:40 | SQL subtraction is NULL iff a side is NULL |
| LoadFacts.JoinedRows | src/transformers/load_facts.py:41-45 | `staging.orders` is the left side of every join: the joined relation has at least one row per staged order |
| LoadFacts.Aggregate | src/transformers/load_facts.py:31-46 | a group's row carries its GROUP BY key and the YYYYMMDD key of its date; a NULL sum gives 0; a NULL cost sum gives `total_cost` and `profit` 0; with both sums present, `profit` is their difference |
| LoadFacts.FactRowGroup | src/transformers/load_facts.py:31-46 | each fact row is the aggregate of a group key present in the joined relation |
| LoadFacts.GroupFactRow | src/transformers/load_facts.py:46 | each group key of the joined relation has a fact row |
| LoadFacts.FactOrderGroupsDistinct | src/transformers/load_facts.py:46 | no two fact rows share their GROUP BY columns |
| LoadFacts.FactOrdersCoverOrders | src/transformers/load_facts.py:34-46 | every staging order yields a fact row for each customer key it joins with, carrying the YYYYMMDD key of its date |
| LoadFacts.JoinedRowOrigin | src/transformers/load_facts.py:41-45 | every joined row comes from one staging order, one of its customer keys and one of its item rows |
| LoadFacts.FactOrdersFromOrders | src/transformers/load_facts.py:31-46 | every fact row comes from a staging order, with the order's id, date, status and date key |
| LoadFacts.FactOrdersCustomerFanOut | src/transformers/load_facts.py:33-46 | an order gets one fact row per matching `dim_customers` row, and a NULL-key row when none matches |
| LoadFacts.FactOrderCustomerKeysResolve | src/transformers/load_facts.py:42 | every non-NULL `customer_key` names a `dim_customers` row |
| LoadFacts.FactOrderRowsNonEmpty | src/transformers/load_facts.py:41 | `fact_orders` is empty iff `staging.orders` is |
| LoadFacts.OrderLinesShape | src/transformers/load_facts.py:43-45 | an order's item side is all-NULL, or has quantity and amount present |
| LoadFacts.FactOrderProfit | src/transformers/load_facts.py:39-40 | in a group whose `SUM(oi.quantity * dp.cost)` is NULL, `total_cost` and `profit` are 0; in every other group `profit` is `total_amount − total_cost` |
| LoadFacts.FactOrderWithoutItems | src/transformers/load_facts.py:37-40 | an order without items gets all four totals 0 |
| LoadFacts.ItemCostsUnique | src/transformers/load_facts.py:44-45 | with unique product ids, an item joins with exactly one cost: its product's, or NULL |
| LoadFacts.ItemsLinesSums | src/transformers/load_facts.py:37-45 | the SUMs over an order's item rows equal the reference totals |
| LoadFacts.FactRowLines | src/transformers/load_facts.py:41-46 | with unique ids, the group of a fact row holds exactly its order's item side |
| LoadFacts.FactOrderTotals | src/transformers/load_facts.py:37-45 | `total_items` is Σ quantity, `total_amount` Σ quantity·price, `total_cost` Σ quantity·cost over items whose product is found, and `profit` their difference, or 0 when no cost is found |
| LoadFacts.ProductFactsMember | src/transformers/load_facts.py:89 | the rows of one item and fact order are exactly its joins with the `dim_products` rows of its product id |
| LoadFacts.OrderFactsMember | src/transformers/load_facts.py:88-89 | the rows of one item are exactly its joins with the matching fact orders and products |
| LoadFacts.ItemFactsMember | src/transformers/load_facts.py:76-89 | a row is in `fact_order_items` iff it is the join of a staging item with a fact order of its order id and a product row of its product id |
| LoadFacts.ItemFactsBalanced | src/transformers/load_facts.py:77-86 | `total_price = q·unit_price`, `total_cost = q·unit_cost` and `profit = total_price − total_cost`; `unit_cost` is the cost of the product row the key names |
| LoadFacts.ItemFactsResolve | src/transformers/load_facts.py:77-78 | both keys of every item fact resolve |
| LoadFacts.ItemFact | src/transformers/load_facts.py:76-86 | the row carries the fact order's key, the product's key and cost, the item's ids, quantity and price, and balances: `total_price = q·unit_price`, `total_cost = q·unit_cost`, `profit` their difference |
| LoadFacts.ItemFacts | src/transformers/load_facts.py:87-89 | with `fact_orders` empty, the inner join writes nothing |
| LoadFacts.ItemFactsCount | src/transformers/load_facts.py:61-89 | the join writes, for each staging item, as many rows as there are fact orders with its order id times `dim_products` rows with its product id; there is no DISTINCT, so identical rows all count |
| LoadFacts.ItemFactsOccurrences | src/transformers/load_facts.py:61-89 | each row value occurs exactly as often as there are matching (staging item, fact order, product row) triples that produce it |
| LoadFacts.ItemFactsOnePerItem | src/transformers/load_facts.py:61-89 | with exactly one fact order per order id and one product row per product id, the table gets exactly one row per staging item |
| LoadFacts.ProductFactsCount | src/transformers/load_facts.py:87-89 | one item and one fact order give one row per `dim_products` row with the item's product id |
| LoadFacts.OrderFactsCount | src/transformers/load_facts.py:87-89 | one item gives (fact orders with its order id) times (product rows with its product id) rows |
| LoadFacts.GroupLinesWithoutItems | src/transformers/load_facts.py:41-46 | a group whose order id has no staging items holds only the all-NULL item side of the LEFT JOIN |
| LoadFacts.FactLoadsKeepConsistency | src/transformers/load_facts.py:17-61 | both fact loads keep the foreign keys resolving |
| LoadFacts.FactLoadsCoverItems | src/transformers/load_facts.py:37-89 | after both loads, for each customer key the order joins with, each staging item of an order with a known product has a row whose `order_key` is the key of that order and customer key's fact row, with its own quantity and price |
| LoadFacts.LoadFactOrders | src/transformers/load_facts.py:11-53 | on success: the warehouse becomes `WithFactOrders` of the old one (rebuilt, items cascaded away), and the result is the count; on an exception: nothing changes |
| LoadFacts.LoadFactOrderItems | src/transformers/load_facts.py:55-96 | on success: the warehouse becomes `WithFactOrderItems` of the old one, and the result is the count; on an exception: nothing changes |
| LoadFacts.WithFactOrders | src/transformers/load_facts.py:17-46 | `fact_orders` becomes the grouped rows with fresh keys, `fact_order_items` is emptied by the CASCADE, and the key sequence advances by the row count |
| LoadFacts.WithFactOrderItems | src/transformers/load_facts.py:61-89 | `fact_order_items` becomes the join of staging items with the current `fact_orders` and `dim_products`; `fact_orders` and its key sequence are untouched |
| LoadFacts.CompletedFactLoads | src/transformers/load_facts.py:104-106 | at least k fact loads complete iff none of the first k raises, so the loads that complete are exactly those before the first failing one |
| LoadFacts.LoadAllFacts | src/transformers/load_facts.py:98-116 | orders strictly before items; an exception ends it; on success it returns both counts in order |
| LoadFacts.AllFactsLoaded | src/transformers/load_facts.py:104-106 | after both loads `fact_orders` is the grouped relation, `fact_order_items` its join with the items, the `order_key` sequence has advanced by the row count, and nothing else changed |
| RunPipeline.ExitStatus | src/run_pipeline.py:163-169 | the exit code is 0 or 1, and 0 iff `run` returned True |
| RunPipeline.Issues | src/run_pipeline.py:101-105 | each issue is reported iff its count is 0; there are none iff both counts are positive |
| RunPipeline.ValidateData | src/run_pipeline.py:78-112 | returns the nine counts (with errors read as 0) and the issues; it passes iff the `fact_orders` and `dim_customers` counts are both positive; it changes nothing |
| RunPipeline.StagingTotal | src/run_pipeline.py:48 | the staging total is the sum of the four CSV row counts |
| RunPipeline.DimensionTotal | src/run_pipeline.py:61 | the dimension total is the sum of the three table counts |
| RunPipeline.FactTotal | src/run_pipeline.py:74 | the fact total is the sum of the two table counts |
| RunPipeline.ExtractAndLoad | src/run_pipeline.py:39-50 | runs `load_all`; on success its total is the sum of the CSV row counts |
| RunPipeline.TransformDimensions | src/run_pipeline.py:52-63 | runs `load_all_dimensions`; on success its total is the sum of the dimension counts |
| RunPipeline.TransformFacts | src/run_pipeline.py:65-76 | runs `load_all_facts`; on success its total is the sum of both fact counts |
| RunPipeline.StagesReached | src/run_pipeline.py:139-161 | how many stages start: 2 to all 6 |
| RunPipeline.RunStages | src/run_pipeline.py:142-157 | the stages after the connection test, in order, stopping at the first exception |
| RunPipeline.RunTransforms | src/run_pipeline.py:145-157 | once staging is loaded: the dimension stage, then the fact stage, then validation and summary, stopping at the first exception; it succeeds iff every stage completes |
| RunPipeline.RunFacts | src/run_pipeline.py:148-157 | once the dimensions are loaded: the fact stage, then validation and summary; it succeeds iff both fact loads complete |
| RunPipeline.ValidateAndSummarize | src/run_pipeline.py:151-155 | validation and summary run in that order whatever validation finds, and change nothing |
| RunPipeline.Run | src/run_pipeline.py:132-161 | connection down: exit status 1 before any load, nothing changes; otherwise the stages run in order, and it returns True iff no stage raised, whatever validation found |
| RunPipeline.RunSucceedsIff | src/run_pipeline.py:157-161 | `run` returns True iff no load raises |
| RunPipeline.FailureKeepsStaging | src/loaders/csv_to_postgres.py:119-137 | once staging has loaded, a later failure leaves the staged rows as written |
| RunPipeline.CompleteRunNonEmpty | src/run_pipeline.py:84-94 | after a complete run, `dim_customers` is non-empty iff some customer is staged, and `fact_orders` is non-empty iff the orders file has rows |
| RunPipeline.CompleteRunCounts | src/run_pipeline.py:84-94 | after a complete run, `dim_customers` has as many rows as the selection from the staged customers and `fact_orders` as many as the grouped relation |
| RunPipeline.ValidationAfterCompleteRun | src/run_pipeline.py:101-112 | after a complete run with readable counts, validation finds no issue iff customers are staged and the orders file is non-empty |
| Config.GetEnv | src/utils/config.py:11-15 | `os.getenv(key, default)`: the set value, or the default when unset |
| Config.FromEnvironment | src/utils/config.py:11-15 | each of the five settings is the environment's value when its variable is set, and its documented default otherwise |
| Config.DefaultSettings | src/utils/config.py:11-15 | with no environment the settings are `localhost`, `5432`, `ecommerce_dw`, `dataeng`, `dataeng123` |
| Config.DatabaseUrl | src/utils/config.py:17-20 | the URL starts with `postgresql://` |
| Config.DatabaseUrlRoundTrip | src/utils/config.py:20 | the URL parses back to the settings it was built from |
| Config.DatabaseUrlInjective | src/utils/config.py:20 | different settings give different URLs |
| Config.Repr | src/utils/config.py:22-23 | the text starts with `<Config DB=` and ends with `>`; its content is pinned by `ReprRoundTrip` |
| Config.ReprRoundTrip | src/utils/config.py:23 | the text reads back as the database name, host and port it was built from, when the name has no '@' and the host no ':' |
| Config.ReprHidesCredentials | src/utils/config.py:22-23 | the text does not depend on the user or the password |

## Left out

- CSV parsing and pandas type inference: each file is a sequence of typed rows. Only `first_name`, `last_name` and `registration_date` of customers can be NULL. Every id, `email`, `country`, `product_name`, `category`, `status`, `order_date`, `quantity`, `unit_price`, `price` and `cost` is assumed present. A blank cell in those columns, which would load as NULL and change the SUMs, the profit COALESCE and the margin, is not modelled.
- `to_sql` chunking: a load that raises is modelled as writing nothing, not a partial prefix of its chunks.
- Money is modelled as integer cents. The double-precision columns pandas creates, and their rounding before `ROUND(...::numeric, 2)`, are not modelled.
- `dim_date`: `week`, `month_name` and `day_name` are not modelled; they are locale strings and the ISO week number.
- `ORDER BY date` of the `dim_date` insert is not modelled: tables are treated as unordered.
- Calendar.DayOfWeek: the day of the week is computed from the date instead of being taken as an input, so equal dates always give equal `dim_date` rows.
- Logging, console output and `print_summary` (its start, end and duration) are not modelled.
- The DDL is not part of this model. These foreign keys are assumed for `TRUNCATE ... CASCADE`: `fact_orders` references `dim_customers` and `dim_date`; `fact_order_items` references `fact_orders` and `dim_products`. `Schema.Consistent` states the customer, order and product references but not `fact_orders` → `dim_date`: that key is assumed only for the CASCADE. An INSERT that would violate a foreign key is not modelled as raising.
- SQLAlchemy's engine, sessions and autocommit connections are not modelled.
- `get_table_count` catches errors call by call; the model fixes, for a whole run, which tables' count queries fail, so a count that fails at one call and succeeds at another is not modelled. No proved property depends on this.
- The connection test's outcome and every exception are inputs.
- A failing TRUNCATE-and-INSERT batch leaves its tables unchanged, because the statement string runs as one implicit transaction. The SERIAL sequences are not modelled as advancing in a failed batch, although PostgreSQL does not roll back `nextval()`: after a failure the real keys skip values, while key uniqueness and freshness hold either way.
- `SELECT DISTINCT` compares every selected column, so it does not deduplicate by `customer_id`. `LoadDimensions.DuplicateCustomerIdsSurvive` states this.
- LoadFacts.FactOrderTotals: stated only when order ids, product ids and `dim_customers` keys are unique. Otherwise the joins repeat item rows and the sums grow by those repeats; `FactOrdersCoverOrders` and `FactOrderProfit` hold without that assumption.
- Config.DatabaseUrlRoundTrip: proved only for settings without the URL's separators. That means no ':' in the user or host, no '@' in the password and no '/' in the port. The source does no escaping.
- Config.DatabaseUrl: the exact URL for the default settings is not stated as a literal; `DefaultSettings` and `DatabaseUrlRoundTrip` pin it down.
- RunPipeline.Run: the stage trace it returns is a device of the model for stating the order of the stages; the source returns only a boolean.
- RunPipeline.ExitStatus models `main`'s `sys.exit(0 if success else 1)`. A failed connection test exits through SystemExit, which escapes `except Exception`; the model keeps that as a separate outcome.
- The dashboard, the analytics queries, the sample-data generator and the tests that need a live database are not part of this model.
