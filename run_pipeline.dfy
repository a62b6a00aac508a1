/**
 * The pipeline runner (`ETLPipeline`): a connection test, then the staging
 * load, the dimension transforms and the fact transforms, then the advisory
 * validation and the summary. Whether the connection test succeeds, which
 * database writes raise and which count queries fail are inputs of the run.
 */
module RunPipeline {
  import opened Relational
  import opened Schema
  import opened CsvToPostgres
  import opened LoadDimensions
  import opened LoadFacts

  /** The stages `run` starts, in the order it starts them. */
  datatype Stage = ConnectionTest | StagingLoad | DimensionTransform | FactTransform | Validation | Summary

  const AllStages: seq<Stage> := [ConnectionTest, StagingLoad, DimensionTransform, FactTransform, Validation, Summary]

  /** The directory `CSVLoader.load_all` reads when called without arguments. */
  const DataDir: string := "data/sample"

  /**
   * What a run depends on apart from the database: whether the connection
   * test succeeds, the contents of the four CSV files, the clock readings of
   * the loads, the writes that raise, and the tables whose count query fails
   * (one set for the whole run, so a table's count fails at every call or at none).
   */
  datatype Env = Env(
    connectionUp: bool,
    files: SourceFiles,
    times: LoadTimes,
    clock: DimensionClock,
    failing: set<Step>,
    unreadable: set<Table>)

  /**
   * How `run` ends: the `sys.exit(1)` of a failed connection test (a
   * `SystemExit`, which `except Exception` does not catch), or a returned
   * success flag.
   */
  datatype RunOutcome = ConnectionExit | Returned(success: bool)

  /** The process exit status `main` produces. */
  function ExitStatus(o: RunOutcome): (code: int)
    ensures code == 0 || code == 1
    ensures code == 0 <==> o == Returned(true)
  {
    match o
    case ConnectionExit => 1
    case Returned(success) => if success then 0 else 1
  }

  // ---------------------------------------------------------------------------
  // validation
  // ---------------------------------------------------------------------------

  /** The data-quality issues `validate_data` reports for the two counts it checks. */
  function Issues(factOrdersCount: nat, dimCustomersCount: nat): (r: seq<string>)
    ensures |r| <= 2
    ensures "No orders in fact table" in r <==> factOrdersCount == 0
    ensures "No customers in dimension" in r <==> dimCustomersCount == 0
    ensures r == [] <==> factOrdersCount > 0 && dimCustomersCount > 0
  {
    (if factOrdersCount == 0 then ["No orders in fact table"] else [])
    + (if dimCustomersCount == 0 then ["No customers in dimension"] else [])
  }

  /** The `validations` dictionary: the nine tables with their reported counts. */
  function ValidationCounts(s: State, unreadable: set<Table>): seq<Entry> {
    [Entry(QualifiedName(StagingCustomers), CountOrZero(s, StagingCustomers, unreadable)),
     Entry(QualifiedName(StagingProducts), CountOrZero(s, StagingProducts, unreadable)),
     Entry(QualifiedName(StagingOrders), CountOrZero(s, StagingOrders, unreadable)),
     Entry(QualifiedName(StagingOrderItems), CountOrZero(s, StagingOrderItems, unreadable)),
     Entry(QualifiedName(DimCustomers), CountOrZero(s, DimCustomers, unreadable)),
     Entry(QualifiedName(DimProducts), CountOrZero(s, DimProducts, unreadable)),
     Entry(QualifiedName(DimDate), CountOrZero(s, DimDate, unreadable)),
     Entry(QualifiedName(FactOrders), CountOrZero(s, FactOrders, unreadable)),
     Entry(QualifiedName(FactOrderItems), CountOrZero(s, FactOrderItems, unreadable))]
  }

  /**
   * `validate_data`: reads the nine counts, collects the issues, and passes
   * exactly when there are none. It changes nothing.
   */
  method ValidateData(w: Warehouse, unreadable: set<Table>)
    returns (validations: seq<Entry>, issues: seq<string>, passed: bool)
    ensures validations == ValidationCounts(w.Snapshot(), unreadable)
    ensures issues == Issues(CountOrZero(w.Snapshot(), FactOrders, unreadable), CountOrZero(w.Snapshot(), DimCustomers, unreadable))
    ensures passed <==> CountOrZero(w.Snapshot(), FactOrders, unreadable) > 0 && CountOrZero(w.Snapshot(), DimCustomers, unreadable) > 0
  {
    var c1 := w.TableCount(StagingCustomers, unreadable);
    var c2 := w.TableCount(StagingProducts, unreadable);
    var c3 := w.TableCount(StagingOrders, unreadable);
    var c4 := w.TableCount(StagingOrderItems, unreadable);
    var c5 := w.TableCount(DimCustomers, unreadable);
    var c6 := w.TableCount(DimProducts, unreadable);
    var c7 := w.TableCount(DimDate, unreadable);
    var c8 := w.TableCount(FactOrders, unreadable);
    var c9 := w.TableCount(FactOrderItems, unreadable);
    validations := [Entry(QualifiedName(StagingCustomers), c1), Entry(QualifiedName(StagingProducts), c2),
                    Entry(QualifiedName(StagingOrders), c3), Entry(QualifiedName(StagingOrderItems), c4),
                    Entry(QualifiedName(DimCustomers), c5), Entry(QualifiedName(DimProducts), c6),
                    Entry(QualifiedName(DimDate), c7), Entry(QualifiedName(FactOrders), c8),
                    Entry(QualifiedName(FactOrderItems), c9)];
    issues := [];
    if c8 == 0 {
      issues := issues + ["No orders in fact table"];
    }
    if c5 == 0 {
      issues := issues + ["No customers in dimension"];
    }
    passed := issues == [];
  }

  // ---------------------------------------------------------------------------
  // the stage totals
  // ---------------------------------------------------------------------------

  /** The total `extract_and_load` logs is the number of CSV rows of the four files. */
  lemma StagingTotal(files: SourceFiles)
    ensures TotalRows(LoadResults(files)) == |files.customers| + |files.products| + |files.orders| + |files.orderItems|
  {
    var a, b, c, d := Entry("customers", |files.customers|), Entry("products", |files.products|),
                      Entry("orders", |files.orders|), Entry("order_items", |files.orderItems|);
    TotalRowsConcat([a] + [b] + [c], [d]);
    TotalRowsConcat([a] + [b], [c]);
    TotalRowsConcat([a], [b]);
    TotalRowsSingle(a);
    TotalRowsSingle(b);
    TotalRowsSingle(c);
    TotalRowsSingle(d);
  }

  /** The total `transform_dimensions` logs is the sum of the three dimension counts. */
  lemma DimensionTotal(s: State, unreadable: set<Table>)
    ensures TotalRows(DimensionResults(s, unreadable)) ==
      CountOrZero(s, DimCustomers, unreadable) + CountOrZero(s, DimProducts, unreadable) + CountOrZero(s, DimDate, unreadable)
  {
    var a, b, c := Entry("dim_customers", CountOrZero(s, DimCustomers, unreadable)),
                   Entry("dim_products", CountOrZero(s, DimProducts, unreadable)),
                   Entry("dim_date", CountOrZero(s, DimDate, unreadable));
    TotalRowsConcat([a] + [b], [c]);
    TotalRowsConcat([a], [b]);
    TotalRowsSingle(a);
    TotalRowsSingle(b);
    TotalRowsSingle(c);
  }

  /** The total `transform_facts` logs is the sum of the two fact counts. */
  lemma FactTotal(s: State, unreadable: set<Table>)
    ensures TotalRows(FactResults(s, unreadable)) ==
      CountOrZero(s, FactOrders, unreadable) + CountOrZero(s, FactOrderItems, unreadable)
  {
    var a, b := Entry("fact_orders", CountOrZero(s, FactOrders, unreadable)),
                Entry("fact_order_items", CountOrZero(s, FactOrderItems, unreadable));
    TotalRowsConcat([a], [b]);
    TotalRowsSingle(a);
    TotalRowsSingle(b);
  }

  // ---------------------------------------------------------------------------
  // the stages
  // ---------------------------------------------------------------------------

  /** `extract_and_load`: `load_all` on the default directory, and the total of its counts. */
  method ExtractAndLoad(w: Warehouse, env: Env) returns (r: Result<seq<Entry>>, total: nat)
    requires w.Valid()
    modifies w
    ensures w.Valid()
    ensures w.Snapshot() == AfterLoads(old(w.Snapshot()), CompletedLoads(env.failing), env.files, DataDir, env.times)
    ensures CompletedLoads(env.failing) < 4 ==> r == Raised(LoadStep(CompletedLoads(env.failing)))
    ensures CompletedLoads(env.failing) == 4 ==>
      && r == Ok(LoadResults(env.files))
      && total == |env.files.customers| + |env.files.products| + |env.files.orders| + |env.files.orderItems|
  {
    r := LoadAll(w, env.files, DataDir, env.times, env.failing);
    total := 0;
    if r.Ok? {
      StagingTotal(env.files);
      total := TotalRows(r.value);
    }
  }

  /** `transform_dimensions`: `load_all_dimensions`, and the total of its counts. */
  method TransformDimensions(w: Warehouse, env: Env) returns (r: Result<seq<Entry>>, total: nat)
    requires w.Valid()
    modifies w
    ensures w.Valid()
    ensures w.Snapshot() == DimensionLoads(old(w.Snapshot()), CompletedDimensionLoads(env.failing), env.clock)
    ensures CompletedDimensionLoads(env.failing) < 3 ==> r == Raised(DimensionStep(CompletedDimensionLoads(env.failing)))
    ensures CompletedDimensionLoads(env.failing) == 3 ==>
      && r == Ok(DimensionResults(w.Snapshot(), env.unreadable))
      && total == CountOrZero(w.Snapshot(), DimCustomers, env.unreadable)
                  + CountOrZero(w.Snapshot(), DimProducts, env.unreadable) + CountOrZero(w.Snapshot(), DimDate, env.unreadable)
  {
    r := LoadAllDimensions(w, env.clock, env.failing, env.unreadable);
    total := 0;
    if r.Ok? {
      DimensionTotal(w.Snapshot(), env.unreadable);
      total := TotalRows(r.value);
    }
  }

  /** `transform_facts`: `load_all_facts`, and the total of its counts. */
  method TransformFacts(w: Warehouse, env: Env) returns (r: Result<seq<Entry>>, total: nat)
    requires w.Valid()
    modifies w
    ensures w.Valid()
    ensures w.Snapshot() == FactLoads(old(w.Snapshot()), CompletedFactLoads(env.failing))
    ensures CompletedFactLoads(env.failing) < 2 ==> r == Raised(FactStep(CompletedFactLoads(env.failing)))
    ensures CompletedFactLoads(env.failing) == 2 ==>
      && r == Ok(FactResults(w.Snapshot(), env.unreadable))
      && total == CountOrZero(w.Snapshot(), FactOrders, env.unreadable) + CountOrZero(w.Snapshot(), FactOrderItems, env.unreadable)
  {
    r := LoadAllFacts(w, env.failing, env.unreadable);
    total := 0;
    if r.Ok? {
      FactTotal(w.Snapshot(), env.unreadable);
      total := TotalRows(r.value);
    }
  }

  // ---------------------------------------------------------------------------
  // run
  // ---------------------------------------------------------------------------

  /** How many stages a run with a working connection starts: the stage that raises is the last. */
  function StagesReached(failing: set<Step>): (n: nat)
    ensures 2 <= n <= |AllStages|
  {
    if CompletedLoads(failing) < 4 then 2
    else if CompletedDimensionLoads(failing) < 3 then 3
    else if CompletedFactLoads(failing) < 2 then 4
    else 6
  }

  /** The database after the transforms of a run whose staging load completed. */
  function TransformState(s: State, env: Env): State {
    var dims := DimensionLoads(s, CompletedDimensionLoads(env.failing), env.clock);
    if CompletedDimensionLoads(env.failing) < 3 then dims
    else FactLoads(dims, CompletedFactLoads(env.failing))
  }

  /** The database after a run with a working connection: the stages up to the one that raised, none undone. */
  function PipelineState(s: State, env: Env): State {
    var staged := AfterLoads(s, CompletedLoads(env.failing), env.files, DataDir, env.times);
    if CompletedLoads(env.failing) < 4 then staged else TransformState(staged, env)
  }

  /** `run` from `transform_facts` on: the facts, then, unless they raised, validation and the summary. */
  method RunFacts(w: Warehouse, env: Env) returns (success: bool, trace: seq<Stage>)
    requires w.Valid()
    requires CompletedLoads(env.failing) == 4 && CompletedDimensionLoads(env.failing) == 3
    modifies w
    ensures w.Valid()
    ensures success <==> StagesReached(env.failing) == |AllStages|
    ensures trace == AllStages[3..StagesReached(env.failing)]
    ensures w.Snapshot() == FactLoads(old(w.Snapshot()), CompletedFactLoads(env.failing))
  {
    var facts, _ := TransformFacts(w, env);
    if facts.Raised? {
      return false, [FactTransform];
    }
    var rest := ValidateAndSummarize(w, env.unreadable);
    assert StagesReached(env.failing) == 6;
    assert AllStages[3..6] == [FactTransform] + rest;
    return true, [FactTransform] + rest;
  }

  /**
   * The last two stages of `run`: `validate_data`, whose verdict `run`
   * discards, then the summary. Neither changes the database.
   */
  method ValidateAndSummarize(w: Warehouse, unreadable: set<Table>) returns (trace: seq<Stage>)
    ensures trace == [Validation, Summary]
  {
    var _, _, _ := ValidateData(w, unreadable);
    trace := [Validation, Summary];
  }

  /** `run` from `transform_dimensions` on. */
  method RunTransforms(w: Warehouse, env: Env) returns (success: bool, trace: seq<Stage>)
    requires w.Valid()
    requires CompletedLoads(env.failing) == 4
    modifies w
    ensures w.Valid()
    ensures success <==> StagesReached(env.failing) == |AllStages|
    ensures trace == AllStages[2..StagesReached(env.failing)]
    ensures w.Snapshot() == TransformState(old(w.Snapshot()), env)
  {
    ghost var before := w.Snapshot();
    var dims, _ := TransformDimensions(w, env);
    if dims.Raised? {
      return false, [DimensionTransform];
    }
    ghost var dimensioned := w.Snapshot();
    assert dimensioned == DimensionLoads(before, 3, env.clock);
    var rest;
    success, rest := RunFacts(w, env);
    assert w.Snapshot() == FactLoads(dimensioned, CompletedFactLoads(env.failing));
    trace := [DimensionTransform] + rest;
  }

  /** `run` from `extract_and_load` on. */
  method RunStages(w: Warehouse, env: Env) returns (success: bool, trace: seq<Stage>)
    requires w.Valid()
    modifies w
    ensures w.Valid()
    ensures success <==> StagesReached(env.failing) == |AllStages|
    ensures trace == AllStages[1..StagesReached(env.failing)]
    ensures w.Snapshot() == PipelineState(old(w.Snapshot()), env)
  {
    ghost var before := w.Snapshot();
    var staged, _ := ExtractAndLoad(w, env);
    if staged.Raised? {
      return false, [StagingLoad];
    }
    ghost var loaded := w.Snapshot();
    assert loaded == AfterLoads(before, 4, env.files, DataDir, env.times);
    var rest;
    success, rest := RunTransforms(w, env);
    assert w.Snapshot() == TransformState(loaded, env);
    trace := [StagingLoad] + rest;
  }

  /**
   * `run`. A failed connection test exits before any load; otherwise the
   * stages run in order until one raises, and `run` returns whether none
   * did. The validation result is discarded: it does not affect the outcome.
   * `trace` lists the stages started.
   */
  method Run(w: Warehouse, env: Env) returns (outcome: RunOutcome, trace: seq<Stage>)
    requires w.Valid()
    modifies w
    ensures w.Valid()
    ensures !env.connectionUp ==>
      outcome == ConnectionExit && trace == [ConnectionTest] && w.Snapshot() == old(w.Snapshot())
    ensures env.connectionUp ==>
      && outcome == Returned(StagesReached(env.failing) == |AllStages|)
      && trace == AllStages[..StagesReached(env.failing)]
      && w.Snapshot() == PipelineState(old(w.Snapshot()), env)
  {
    if !env.connectionUp {
      return ConnectionExit, [ConnectionTest];
    }
    var success, rest := RunStages(w, env);
    outcome := Returned(success);
    trace := [ConnectionTest] + rest;
  }

  // ---------------------------------------------------------------------------
  // properties of a run
  // ---------------------------------------------------------------------------

  /** A run with a working connection succeeds exactly when no database write raises. */
  lemma RunSucceedsIff(failing: set<Step>)
    ensures StagesReached(failing) == |AllStages| <==> failing == {}
  {
    if failing != {} {
      var x :| x in failing;
      match x
      case StageCustomers =>
      case StageProducts =>
      case StageOrders =>
      case StageOrderItems =>
      case BuildDimCustomers =>
      case BuildDimProducts =>
      case BuildDimDate =>
      case BuildFactOrders =>
      case BuildFactOrderItems =>
    }
  }

  /**
   * Nothing is rolled back: when the staging load completed, a later failure
   * leaves the four staging tables as the load wrote them.
   */
  lemma FailureKeepsStaging(s: State, env: Env)
    requires CompletedLoads(env.failing) == 4
    ensures var t := PipelineState(s, env);
      var staged := AfterLoads(s, 4, env.files, DataDir, env.times);
      t.customers == staged.customers && t.products == staged.products
      && t.orders == staged.orders && t.orderItems == staged.orderItems
  {
    var staged := AfterLoads(s, 4, env.files, DataDir, env.times);
    TransformsKeepStaging(staged, env);
  }

  /** The transforms read the staging tables and never write them. */
  lemma TransformsKeepStaging(s: State, env: Env)
    ensures var t := TransformState(s, env);
      t.customers == s.customers && t.products == s.products && t.orders == s.orders && t.orderItems == s.orderItems
  {
    var d1 := DimensionLoads(s, 1, env.clock);
    var d2 := DimensionLoads(s, 2, env.clock);
    assert d1.customers == s.customers && d1.products == s.products && d1.orders == s.orders && d1.orderItems == s.orderItems;
    assert d2.customers == s.customers && d2.products == s.products && d2.orders == s.orders && d2.orderItems == s.orderItems;
  }

  /** The sizes of the two checked tables after a run in which nothing raised. */
  lemma CompleteRunCounts(s: State, env: Env)
    requires env.failing == {}
    ensures var t := PipelineState(s, env);
      && |t.dimCustomers| == |SelectCustomers(AfterLoads(s, 4, env.files, DataDir, env.times).customers, env.clock.cutoffs, env.clock.customersAt)|
      && |t.factOrders| == |FactOrderRows(DimensionLoads(AfterLoads(s, 4, env.files, DataDir, env.times), 3, env.clock))|
  {
    var staged := AfterLoads(s, 4, env.files, DataDir, env.times);
    AllDimensionsLoaded(staged, env.clock);
  }

  /** After a run in which nothing raised, a checked table is empty exactly when its source is. */
  lemma CompleteRunNonEmpty(s: State, env: Env)
    requires env.failing == {}
    ensures var t := PipelineState(s, env);
      && (|t.dimCustomers| > 0 <==> |s.customers| + |env.files.customers| > 0)
      && (|t.factOrders| > 0 <==> |env.files.orders| > 0)
  {
    var staged := AfterLoads(s, 4, env.files, DataDir, env.times);
    var dims := DimensionLoads(staged, 3, env.clock);
    AllLoads(s, env.files, DataDir, env.times);
    AllDimensionsLoaded(staged, env.clock);
    CompleteRunCounts(s, env);
    FactOrderRowsNonEmpty(dims);
    SelectCustomersNonEmpty(staged.customers, env.clock.cutoffs, env.clock.customersAt);
  }

  /**
   * After a run in which nothing raised and both checked counts are
   * readable, validation passes exactly when some customer row is staged
   * (old or new) and the orders file is not empty.
   */
  lemma ValidationAfterCompleteRun(s: State, env: Env)
    requires env.failing == {}
    requires FactOrders !in env.unreadable && DimCustomers !in env.unreadable
    ensures var t := PipelineState(s, env);
      Issues(CountOrZero(t, FactOrders, env.unreadable), CountOrZero(t, DimCustomers, env.unreadable)) == []
      <==> |s.customers| + |env.files.customers| > 0 && |env.files.orders| > 0
  {
    CompleteRunNonEmpty(s, env);
    ReadableIssues(PipelineState(s, env), env.unreadable);
  }

  /** With both checked counts readable, validation finds no issue exactly when both tables have rows. */
  lemma ReadableIssues(t: State, unreadable: set<Table>)
    requires FactOrders !in unreadable && DimCustomers !in unreadable
    ensures Issues(CountOrZero(t, FactOrders, unreadable), CountOrZero(t, DimCustomers, unreadable)) == []
      <==> |t.factOrders| > 0 && |t.dimCustomers| > 0
  {
  }
}
