/**
 * The two graph nodes that sit between the planner and the narrator, in both
 * copies of the chat graph: the validator node normalises the plan kept in
 * the state and adds its warnings to the state's list; the extractor node
 * refuses to run without a database handle, then builds the statement from
 * the plan, passes it through the safety gate, and only then hands it to the
 * database. The database is a stand-in that logs what it runs.
 */
module Graph {
  import opened Wrappers
  import opened Strings
  import opened Values
  import opened SqlBuilder
  import opened Validators
  import opened Schema
  import opened Utils
  import opened Pipeline

  const MissingConnection := "DuckDB connection missing in state." + " Ensure state[\"duckdb_conn\"] is set in app.py"
  const MissingService := "duckdb_service missing in state"

  /** `state.get('plan') or {}`. */
  function PlanInput(plan: Option<Value>): Value {
    Or(plan, Dict([]))
  }

  /** The statement the extractor may run: the compiled plan, once the gate lets it through. */
  function CheckedSql(schema: Option<string>, plan: Option<Value>): (r: Result<string, Exc>)
    ensures r.Success? ==> Compile(PlanInput(plan), KnownCols(schema)) == Success(r.value)
    ensures r.Success? ==> ValidateSqlIsSelect(Some(r.value)) == Pass
    ensures r.Failure? ==>
      Compile(PlanInput(plan), KnownCols(schema)).Failure?
      || ValidateSqlIsSelect(Some(Compile(PlanInput(plan), KnownCols(schema)).value)).Fail?
  {
    var sql :- Compile(PlanInput(plan), KnownCols(schema));
    match ValidateSqlIsSelect(Some(sql))
    case Pass => Success(sql)
    case Fail(e) => Failure(e)
  }

  /** Building the statement from the state's plan and schema, then checking it. */
  method CheckSql(schema: Option<string>, plan: Option<Value>) returns (r: Result<string, Exc>)
    ensures r == CheckedSql(schema, plan)
  {
    var cols := SchemaCols(schema);
    var built := BuildSql(PlanInput(plan), cols);
    if built.Failure? {
      return Failure(built.error);
    }
    var statement := built.value;
    var verdict := ValidateSqlIsSelect(Some(statement));
    if verdict.Fail? {
      return Failure(verdict.error);
    }
    return Success(statement);
  }

  /** Every statement in the log passed the gate. */
  ghost predicate AllPassed(log: seq<string>) {
    forall k :: 0 <= k < |log| ==> ValidateSqlIsSelect(Some(log[k])) == Pass
  }

  /** Running a statement the gate let through keeps the log clean. */
  lemma PassedAppend(log: seq<string>, sql: string)
    requires AllPassed(log) && ValidateSqlIsSelect(Some(sql)) == Pass
    ensures AllPassed(log + [sql])
  {
    assert forall k :: 0 <= k < |log| ==> (log + [sql])[k] == log[k];
  }

  /** The stand-in database: it logs every statement it runs and answers with a fixed table. */
  class Store {
    var executed: seq<string>
    var answer: DataFrame

    constructor (answer: DataFrame)
      ensures executed == [] && this.answer == answer
    {
      executed := [];
      this.answer := answer;
    }

    method Query(sql: string) returns (df: DataFrame)
      modifies this
      ensures executed == old(executed) + [sql] && answer == old(answer)
      ensures df == answer
    {
      executed := executed + [sql];
      df := answer;
    }
  }

  /**
   * Once a plan has been validated, building its statement can fail only on
   * its sort entries, and the gate then refuses the statement only for a
   * banned word: never because it does not open with `select`.
   */
  lemma ValidatedPlanReachesGate(d: seq<(string, Value)>, cols: seq<string>)
    requires Validated(Dict(d), cols)
    requires SortItemsOf(d).Success? && SortTerms(SortItemsOf(d).value, cols).Success?
    ensures Compile(Dict(d), cols).Success?
    ensures var sql := Compile(Dict(d), cols).value;
      ValidateSqlIsSelect(Some(sql)) != Fail(ValueError(OnlySelectMessage))
      && (ValidateSqlIsSelect(Some(sql)) == Pass <==> !HasBannedWord(Lower(sql)))
  {
    ValidatedCompiles(d, cols);
    CompiledGate(Dict(d), cols);
  }

  // ---------------------------------------------------------------- retail_assistant/graph.py

  /** The state the assistant graph threads through its nodes. */
  class AssistantState {
    var schema: Option<string>
    var plan: Option<Value>
    var warnings: Option<seq<string>>
    var sql: Option<string>
    var resultDf: Option<DataFrame>
    var conn: Store?

    constructor (schema: Option<string>, plan: Option<Value>, conn: Store?)
      ensures this.schema == schema && this.plan == plan && this.conn == conn
      ensures warnings.None? && sql.None? && resultDf.None?
    {
      this.schema := schema;
      this.plan := plan;
      this.conn := conn;
      warnings := None;
      sql := None;
      resultDf := None;
    }

    /** Every statement the connection has run passed the gate. */
    ghost predicate Guarded()
      reads this, conn
    {
      conn != null ==> AllPassed(conn.executed)
    }

    /**
     * `validator_node`: the plan is replaced by its normalised form and the
     * warnings are added after those already in the state. When
     * `validate_plan` raises, the state's plan keeps the updates made to it
     * in place before the raise, and the warnings are untouched.
     */
    method ValidatorNode() returns (r: Outcome<Exc>)
      modifies this
      ensures schema == old(schema) && conn == old(conn) && sql == old(sql) && resultDf == old(resultDf)
      ensures var d := PlanEntries(PlanInput(old(plan)));
        r.Pass? <==> CatalogMetrics(MetricInput(d)).Success? && NotesInput(d).Str?
      ensures r.Fail? ==>
        old(plan).Some? && old(plan).value.Dict? && plan.Some? && plan.value.Dict?
        && LeftBehind(old(plan).value.entries, plan.value.entries, KnownCols(schema))
        && warnings == old(warnings)
      ensures r.Pass? ==>
        plan.Some? && plan.value.Dict?
        && Normalises(PlanEntries(PlanInput(old(plan))), plan.value.entries, KnownCols(schema))
        && Validated(plan.value, KnownCols(schema))
        && warnings == Some(old(warnings).GetOr([]) + Warnings(PlanInput(old(plan))))
    {
      var cols := SchemaCols(schema);
      var res, after := ValidatePlan(PlanInput(plan), cols);
      if res.Failure? {
        plan := Some(after);
        return Fail(res.error);
      }
      Keep(res.value.0, res.value.1);
      return Pass;
    }

    /** Stores the normalised plan and adds the warnings after those already kept. */
    method Keep(normalised: Value, warns: seq<string>)
      modifies this
      ensures schema == old(schema) && conn == old(conn) && sql == old(sql) && resultDf == old(resultDf)
      ensures plan == Some(normalised) && warnings == Some(old(warnings).GetOr([]) + warns)
    {
      plan := Some(normalised);
      var existing := warnings.GetOr([]);
      warnings := Some(existing + warns);
    }

    /**
     * `extractor_node`: without a connection it raises before building
     * anything; otherwise the statement is built and checked, and only a
     * statement the gate lets through reaches the connection.
     */
    method ExtractorNode() returns (r: Outcome<Exc>)
      modifies this, conn
      ensures schema == old(schema) && plan == old(plan) && warnings == old(warnings) && conn == old(conn)
      ensures conn == null ==>
        r == Fail(RuntimeError(MissingConnection)) && sql == old(sql) && resultDf == old(resultDf)
      ensures conn != null ==> conn.answer == old(conn.answer)
      ensures conn != null ==> (r.Pass? <==> CheckedSql(old(schema), old(plan)).Success?)
      ensures conn != null && r.Fail? ==>
        r.error == CheckedSql(old(schema), old(plan)).error
        && conn.executed == old(conn.executed) && sql == old(sql) && resultDf == old(resultDf)
      ensures conn != null && r.Pass? ==>
        conn.executed == old(conn.executed) + [CheckedSql(old(schema), old(plan)).value]
        && sql == Some(CheckedSql(old(schema), old(plan)).value) && resultDf == Some(conn.answer)
      ensures old(Guarded()) ==> Guarded()
    {
      if conn == null {
        return Fail(RuntimeError(MissingConnection));
      }
      var checked := CheckSql(schema, plan);
      if checked.Failure? {
        return Fail(checked.error);
      }
      Run(checked.value);
      return Pass;
    }

    /** Hands a checked statement to the connection and keeps its result. */
    method Run(statement: string)
      requires conn != null
      modifies this, conn
      ensures schema == old(schema) && plan == old(plan) && warnings == old(warnings) && conn == old(conn)
      ensures conn.executed == old(conn.executed) + [statement] && conn.answer == old(conn.answer)
      ensures sql == Some(statement) && resultDf == Some(conn.answer)
      ensures old(Guarded()) && ValidateSqlIsSelect(Some(statement)) == Pass ==> Guarded()
    {
      ghost var before := conn.executed;
      var df := conn.Query(statement);
      if AllPassed(before) && ValidateSqlIsSelect(Some(statement)) == Pass {
        PassedAppend(before, statement);
      }
      sql := Some(statement);
      resultDf := Some(df);
    }
  }

  // ---------------------------------------------------------------- src/retail_ai/graphs/chat_graph.py

  /** The state the chat graph threads through its nodes; the database sits behind a service. */
  class ChatState {
    var schema: Option<string>
    var plan: Option<Value>
    var warnings: Option<seq<string>>
    var sql: Option<string>
    var resultDf: Option<DataFrame>
    var service: Store?

    constructor (schema: Option<string>, plan: Option<Value>, service: Store?)
      ensures this.schema == schema && this.plan == plan && this.service == service
      ensures warnings.None? && sql.None? && resultDf.None?
    {
      this.schema := schema;
      this.plan := plan;
      this.service := service;
      warnings := None;
      sql := None;
      resultDf := None;
    }

    /** Every statement the service has run passed the gate. */
    ghost predicate Guarded()
      reads this, service
    {
      service != null ==> AllPassed(service.executed)
    }

    /** `validator`: as in the assistant graph, including the updates left behind by a raise. */
    method Validator() returns (r: Outcome<Exc>)
      modifies this
      ensures schema == old(schema) && service == old(service) && sql == old(sql) && resultDf == old(resultDf)
      ensures var d := PlanEntries(PlanInput(old(plan)));
        r.Pass? <==> CatalogMetrics(MetricInput(d)).Success? && NotesInput(d).Str?
      ensures r.Fail? ==>
        old(plan).Some? && old(plan).value.Dict? && plan.Some? && plan.value.Dict?
        && LeftBehind(old(plan).value.entries, plan.value.entries, KnownCols(schema))
        && warnings == old(warnings)
      ensures r.Pass? ==>
        plan.Some? && plan.value.Dict?
        && Normalises(PlanEntries(PlanInput(old(plan))), plan.value.entries, KnownCols(schema))
        && Validated(plan.value, KnownCols(schema))
        && warnings == Some(old(warnings).GetOr([]) + Warnings(PlanInput(old(plan))))
    {
      var cols := SchemaCols(schema);
      var res, after := ValidatePlan(PlanInput(plan), cols);
      if res.Failure? {
        plan := Some(after);
        return Fail(res.error);
      }
      Keep(res.value.0, res.value.1);
      return Pass;
    }

    /** Stores the normalised plan and adds the warnings after those already kept. */
    method Keep(normalised: Value, warns: seq<string>)
      modifies this
      ensures schema == old(schema) && service == old(service) && sql == old(sql) && resultDf == old(resultDf)
      ensures plan == Some(normalised) && warnings == Some(old(warnings).GetOr([]) + warns)
    {
      plan := Some(normalised);
      var existing := warnings.GetOr([]);
      warnings := Some(existing + warns);
    }

    /** `extractor`: as in the assistant graph, with the service's own message. */
    method Extractor() returns (r: Outcome<Exc>)
      modifies this, service
      ensures schema == old(schema) && plan == old(plan) && warnings == old(warnings) && service == old(service)
      ensures service == null ==>
        r == Fail(RuntimeError(MissingService)) && sql == old(sql) && resultDf == old(resultDf)
      ensures service != null ==> service.answer == old(service.answer)
      ensures service != null ==> (r.Pass? <==> CheckedSql(old(schema), old(plan)).Success?)
      ensures service != null && r.Fail? ==>
        r.error == CheckedSql(old(schema), old(plan)).error
        && service.executed == old(service.executed) && sql == old(sql) && resultDf == old(resultDf)
      ensures service != null && r.Pass? ==>
        service.executed == old(service.executed) + [CheckedSql(old(schema), old(plan)).value]
        && sql == Some(CheckedSql(old(schema), old(plan)).value) && resultDf == Some(service.answer)
      ensures old(Guarded()) ==> Guarded()
    {
      if service == null {
        return Fail(RuntimeError(MissingService));
      }
      var checked := CheckSql(schema, plan);
      if checked.Failure? {
        return Fail(checked.error);
      }
      Run(checked.value);
      return Pass;
    }

    /** Hands a checked statement to the service and keeps its result. */
    method Run(statement: string)
      requires service != null
      modifies this, service
      ensures schema == old(schema) && plan == old(plan) && warnings == old(warnings) && service == old(service)
      ensures service.executed == old(service.executed) + [statement] && service.answer == old(service.answer)
      ensures sql == Some(statement) && resultDf == Some(service.answer)
      ensures old(Guarded()) && ValidateSqlIsSelect(Some(statement)) == Pass ==> Guarded()
    {
      ghost var before := service.executed;
      var df := service.Query(statement);
      if AllPassed(before) && ValidateSqlIsSelect(Some(statement)) == Pass {
        PassedAppend(before, statement);
      }
      sql := Some(statement);
      resultDf := Some(df);
    }
  }
}
