/**
 * The plan-to-SQL compiler. A plan is read into a `Query` (`PlanQuery`,
 * which raises where the Python code raises, in the same order) and the
 * query is printed as DuckDB SQL (`Render`). `BuildSql` is the compiler
 * written as the source writes it, loop by loop, and is proved to produce
 * exactly `Compile(plan, cols)`.
 */
module SqlBuilder {
  import opened Wrappers
  import opened Strings
  import opened Values

  // ---------------------------------------------------------------- catalogue

  /**
   * The only aggregate expressions a plan may ask for, by metric name. Each
   * expression is written as pieces that meet at a space or a bracket, so
   * that facts about its text can be proved piece by piece.
   */
  const SafeMetrics: map<string, string> := map[
    "gross_amount" := "SUM(COALESCE(" + "Amount, 0))",
    "shipped_amount" := "SUM(CASE WHEN " + "Status LIKE " + "'Shipped%' " + "THEN "
      + "COALESCE(Amount,0) " + "ELSE 0 END)",
    "cancelled_amount" := "SUM(CASE WHEN " + "lower(" + "Status) " + "LIKE '%cancelled%' " + "THEN "
      + "COALESCE(Amount,0) " + "ELSE 0 END)",
    "orders" := "COUNT(DISTINCT " + "\"Order ID\")",
    "units" := "SUM(COALESCE(Qty,0))",
    "cancel_rate" := "AVG(CASE WHEN " + "lower(" + "Status) " + "LIKE '%cancelled%' " + "THEN "
      + "1.0 ELSE 0.0 END)"
  ]

  const DefaultMetric: string := "shipped_amount"

  /** The date test every time predicate starts with. */
  const DateTerm: string := "TRY_STRPTIME(" + "Date, '%m-%d-%y')"

  const DefaultLimit: int := 10
  const MaxLimit: int := 200

  // ---------------------------------------------------------------- literals

  /** `str.replace("'", "''")`. */
  function Escape(s: string): (r: string)
    ensures |r| >= |s|
  {
    if s == [] then []
    else (if s[0] == '\'' then "''" else [s[0]]) + Escape(s[1..])
  }

  /** `str(v)` for a value that is neither `None` nor a number. */
  function Text(v: Value): string {
    match v
    case Str(s) => s
    case _ => Repr(v)
  }

  /** The quote `repr` puts around a string: double when it holds a single quote and no double quote. */
  function ReprQuote(s: string): (q: char)
    ensures q == '"' <==> '\'' in s && '"' !in s
    ensures q == '\'' || q == '"'
  {
    if '\'' in s && '"' !in s then '"' else '\''
  }

  /** A lower-case hexadecimal digit. */
  function HexDigit(n: nat): char
    requires n < 16
  {
    if n < 10 then ('0' as int + n) as char else ('a' as int + n - 10) as char
  }

  /**
   * One character as `repr` shows it inside quotes `q`: the quote and the
   * backslash behind a backslash; tab, newline and carriage return as `\t`,
   * `\n`, `\r`; other control characters and DEL as `\xhh`.
   */
  function ReprChar(c: char, q: char): (r: string)
    ensures r != []
  {
    if c == q || c == '\\' then ['\\', c]
    else if c == '\t' then "\\t"
    else if c == '\n' then "\\n"
    else if c == '\r' then "\\r"
    else if c as int < 0x20 || c as int == 0x7f then ['\\', 'x', HexDigit(c as int / 16), HexDigit(c as int % 16)]
    else [c]
  }

  /** The characters of `s` as `repr` shows them inside quotes `q`. */
  function ReprBody(s: string, q: char): string {
    if s == [] then [] else ReprChar(s[0], q) + ReprBody(s[1..], q)
  }

  /** `repr` of a string. */
  function StrRepr(s: string): string {
    var q := ReprQuote(s);
    [q] + ReprBody(s, q) + [q]
  }

  /** Python's `repr`, as `str` of a list or dict shows its elements. */
  function Repr(v: Value): string
    decreases v
  {
    match v
    case Null => "None"
    case Bool(b) => if b then "True" else "False"
    case Int(i) => IntToString(i)
    case Str(s) => StrRepr(s)
    case List(items) =>
      "[" + Join(seq(|items|, k requires 0 <= k < |items| => Repr(items[k])), ", ") + "]"
    case Dict(entries) =>
      "{" + Join(seq(|entries|, k requires 0 <= k < |entries| => EntryRepr(v, k)), ", ") + "}"
  }

  function EntryRepr(d: Value, k: int): string
    requires d.Dict? && 0 <= k < |d.entries|
    decreases d, 0
  {
    var e := d.entries[k];
    assert e in d.entries;
    StrRepr(e.0) + ": " + Repr(e.1)
  }

  /** `_sql_literal(v)`: `NULL`, a bare number, or a quoted string with its quotes doubled. */
  function SqlLiteral(v: Value): (r: string)
    ensures v.Null? ==> r == "NULL"
    ensures v.Int? ==> r == IntToString(v.i)
    ensures v.Bool? ==> r == (if v.b then "True" else "False")
    ensures v.Str? ==> r == "'" + Escape(v.s) + "'"
    ensures v.List? || v.Dict? ==> r == "'" + Escape(Repr(v)) + "'"
    ensures r != []
  {
    match v
    case Null => "NULL"
    case Int(i) => IntToString(i)
    case Bool(b) => if b then "True" else "False"
    case _ => "'" + Escape(Text(v)) + "'"
  }

  function Literals(vs: seq<Value>): seq<string> {
    seq(|vs|, k requires 0 <= k < |vs| => SqlLiteral(vs[k]))
  }

  // ---------------------------------------------------------------- queries

  /** A WHERE predicate. */
  datatype Predicate =
    | AtLeastDate(from: Value)
    | AtMostDate(to: Value)
    | IsOneOf(col: string, vals: seq<Value>)
    | EqualTo(col: string, val: Value)

  /** An ORDER BY key: a schema column (quoted) or a metric alias (bare). */
  datatype OrderKey = ColumnKey(name: string) | MetricKey(name: string)

  /** An ORDER BY term; `dir` is the direction text as printed. */
  datatype OrderTerm = OrderTerm(key: OrderKey, dir: string)

  datatype Query = Query(
    groupCols: seq<string>,
    metrics: seq<string>,
    preds: seq<Predicate>,
    order: seq<OrderTerm>,
    limit: int)

  /**
   * Every identifier a query will print is a known column or a catalogued
   * metric, and its limit is in range.
   */
  predicate Sound(q: Query, cols: seq<string>) {
    (forall c :: c in q.groupCols ==> c in cols)
    && (forall m :: m in q.metrics ==> m in SafeMetrics)
    && (forall p :: p in q.preds && (p.IsOneOf? || p.EqualTo?) ==> p.col in cols)
    && (forall t :: t in q.order ==> (if t.key.ColumnKey? then t.key.name in cols else t.key.name in SafeMetrics))
    && 1 <= q.limit <= MaxLimit
  }

  /** `max(1, min(n, 200))`. */
  function Clamp(n: int): (r: int)
    ensures 1 <= r <= MaxLimit
    ensures 1 <= n <= MaxLimit ==> r == n
    ensures n < 1 ==> r == 1
    ensures n > MaxLimit ==> r == MaxLimit
  {
    if n < 1 then 1 else if n > MaxLimit then MaxLimit else n
  }

  /** The group-by loop: the plan's names that are schema columns, in plan order. */
  function GroupColumns(items: seq<Value>, cols: seq<string>): (r: seq<string>)
    ensures |r| <= |items|
    ensures forall c :: c in r ==> c in cols
  {
    if items == [] then []
    else
      var last := items[|items| - 1];
      GroupColumns(items[..|items| - 1], cols) + (if IsIn(last, cols) then [last.s] else [])
  }

  /**
   * The metric loop: the plan's names that are catalogue keys, in plan order;
   * looking up an unhashable element raises `TypeError`.
   */
  function CatalogMetrics(items: seq<Value>): (r: Result<seq<string>, Exc>)
    ensures r.Failure? <==> exists k :: 0 <= k < |items| && !Hashable(items[k])
    ensures r.Failure? ==> r.error == TypeError
    ensures r.Success? ==> |r.value| <= |items| && forall m :: m in r.value ==> m in SafeMetrics
  {
    if items == [] then Success([])
    else
      var init := items[..|items| - 1];
      var last := items[|items| - 1];
      assert forall k :: 0 <= k < |init| ==> init[k] == items[k];
      var names :- CatalogMetrics(init);
      if !Hashable(last) then Failure(TypeError)
      else Success(names + (if last.Str? && last.s in SafeMetrics then [last.s] else []))
  }

  /** The date predicates of the plan's time window: a truthy bound adds a test. */
  function DatePredicates(time: seq<(string, Value)>): (r: seq<Predicate>)
    ensures |r| <= 2
    ensures forall p :: p in r ==> p.AtLeastDate? || p.AtMostDate?
  {
    var from := Get(time, "from");
    var to := Get(time, "to");
    (if from.Some? && Truthy(from.value) then [AtLeastDate(from.value)] else [])
    + (if to.Some? && Truthy(to.value) then [AtMostDate(to.value)] else [])
  }

  /** One filter entry: a list of values becomes an IN test, anything else an equality. */
  function FilterPredicate(col: string, val: Value): (p: Predicate)
    ensures (p.IsOneOf? || p.EqualTo?) && p.col == col
    ensures p.IsOneOf? <==> val.List?
  {
    if val.List? then IsOneOf(col, val.items) else EqualTo(col, val)
  }

  /** The filter loop: entries whose key is a schema column, in entry order. */
  function FilterPredicates(entries: seq<(string, Value)>, cols: seq<string>): (r: seq<Predicate>)
    ensures |r| <= |entries|
    ensures forall p :: p in r ==> (p.IsOneOf? || p.EqualTo?) && p.col in cols
  {
    if entries == [] then []
    else
      var (col, val) := entries[|entries| - 1];
      FilterPredicates(entries[..|entries| - 1], cols)
      + (if col in cols then [FilterPredicate(col, val)] else [])
  }

  /**
   * One sort entry. It must be a dict (`.get`), its order text a string
   * (`.lower()`), and its key hashable unless it is a schema column (the
   * catalogue lookup hashes it). A key that is neither is skipped.
   */
  function SortTerm(s: Value, cols: seq<string>): (r: Result<Option<OrderTerm>, Exc>)
    ensures r.Success? && r.value.Some? ==> (var t := r.value.value;
      if t.key.ColumnKey? then t.key.name in cols else t.key.name in SafeMetrics)
  {
    if !s.Dict? then Failure(AttributeError)
    else
      var key := Get(s.entries, "by").GetOr(Null);
      var order := Or(Get(s.entries, "order"), Str("desc"));
      if !order.Str? then Failure(AttributeError)
      else
        var dir := Upper(Lower(order.s));
        if IsIn(key, cols) then Success(Some(OrderTerm(ColumnKey(key.s), dir)))
        else if !Hashable(key) then Failure(TypeError)
        else if key.Str? && key.s in SafeMetrics then Success(Some(OrderTerm(MetricKey(key.s), dir)))
        else Success(None)
  }

  /** The sort loop: the terms of the entries, in order; the first failing entry raises. */
  function SortTerms(items: seq<Value>, cols: seq<string>): (r: Result<seq<OrderTerm>, Exc>)
    ensures r.Success? ==> |r.value| <= |items|
    ensures r.Success? ==> forall t :: t in r.value ==>
      (if t.key.ColumnKey? then t.key.name in cols else t.key.name in SafeMetrics)
  {
    if items == [] then Success([])
    else
      var terms :- SortTerms(items[..|items| - 1], cols);
      var t :- SortTerm(items[|items| - 1], cols);
      Success(terms + (if t.Some? then [t.value] else []))
  }

  // The plan fields as `build_sql` reads them (`plan.get(key) or default`).

  function LimitOf(d: seq<(string, Value)>): Result<int, Exc> {
    ToInt(Or(Get(d, "limit"), Int(DefaultLimit)))
  }

  function GroupItemsOf(d: seq<(string, Value)>): Result<seq<Value>, Exc> {
    Iter(Or(Get(d, "group_by"), List([])))
  }

  function MetricItemsOf(d: seq<(string, Value)>): Result<seq<Value>, Exc> {
    Iter(Or(Get(d, "metrics"), List([Str(DefaultMetric)])))
  }

  function TimeOf(d: seq<(string, Value)>): Value {
    Or(Get(d, "time"), Dict([]))
  }

  function FiltersOf(d: seq<(string, Value)>): Value {
    Or(Get(d, "filters"), Dict([]))
  }

  function SortItemsOf(d: seq<(string, Value)>): Result<seq<Value>, Exc> {
    Iter(Or(Get(d, "sort"), List([])))
  }

  /**
   * The plan read as a query. Errors come in the order the Python code meets
   * them: `plan.get` on a non-dict, `int(limit)`, iterating group_by, the
   * metric loop, `time.get`, `filters.items()`, then the sort loop.
   */
  function PlanQuery(plan: Value, cols: seq<string>): (r: Result<Query, Exc>)
    ensures r.Success? ==> InCatalog(r.value)
  {
    if !plan.Dict? then Failure(AttributeError)
    else
      var d := plan.entries;
      var limit :- LimitOf(d);
      var groupItems :- GroupItemsOf(d);
      var metricItems :- MetricItemsOf(d);
      var names :- CatalogMetrics(metricItems);
      var time := TimeOf(d);
      var filters := FiltersOf(d);
      if !time.Dict? then Failure(AttributeError)
      else if !filters.Dict? then Failure(AttributeError)
      else
        var sortItems :- SortItemsOf(d);
        var order :- SortTerms(sortItems, cols);
        Success(Query(
          GroupColumns(groupItems, cols),
          names,
          DatePredicates(time.entries) + FilterPredicates(filters.entries, cols),
          order,
          Clamp(limit)))
  }

  /**
   * Every identifier a compiled query prints is a schema column or a
   * catalogued metric, and its limit is between 1 and 200.
   */
  lemma PlanQuerySound(plan: Value, cols: seq<string>)
    requires PlanQuery(plan, cols).Success?
    ensures Sound(PlanQuery(plan, cols).value, cols)
  {
    PlanQueryParts(plan, cols);
    var d := plan.entries;
    var q := PlanQuery(plan, cols).value;
    var dates, filters := DatePredicates(TimeOf(d).entries), FilterPredicates(FiltersOf(d).entries, cols);
    forall p | p in q.preds && (p.IsOneOf? || p.EqualTo?)
      ensures p.col in cols
    {
      assert p in dates || p in filters;
    }
  }

  /** The fields of a compiled query, each from its plan field. */
  lemma PlanQueryParts(plan: Value, cols: seq<string>)
    requires PlanQuery(plan, cols).Success?
    ensures plan.Dict?
    ensures var d := plan.entries; var q := PlanQuery(plan, cols).value;
      LimitOf(d).Success? && q.limit == Clamp(LimitOf(d).value)
      && GroupItemsOf(d).Success? && q.groupCols == GroupColumns(GroupItemsOf(d).value, cols)
      && MetricItemsOf(d).Success? && CatalogMetrics(MetricItemsOf(d).value) == Success(q.metrics)
      && TimeOf(d).Dict? && FiltersOf(d).Dict?
      && q.preds == DatePredicates(TimeOf(d).entries) + FilterPredicates(FiltersOf(d).entries, cols)
      && SortItemsOf(d).Success? && SortTerms(SortItemsOf(d).value, cols) == Success(q.order)
  {
    var d := plan.entries;
    assert LimitOf(d).Success? && GroupItemsOf(d).Success? && MetricItemsOf(d).Success?;
    assert CatalogMetrics(MetricItemsOf(d).value).Success?;
    assert TimeOf(d).Dict? && FiltersOf(d).Dict?;
    assert SortItemsOf(d).Success? && SortTerms(SortItemsOf(d).value, cols).Success?;
  }

  // ---------------------------------------------------------------- printing

  function Quote(name: string): string {
    "\"" + name + "\""
  }

  function QuoteAll(names: seq<string>): (r: seq<string>)
    ensures |r| == |names|
  {
    seq(|names|, k requires 0 <= k < |names| => Quote(names[k]))
  }

  function MetricItem(m: string): string
    requires m in SafeMetrics
  {
    SafeMetrics[m] + " AS " + m
  }

  function MetricItems(ms: seq<string>): (r: seq<string>)
    requires forall m :: m in ms ==> m in SafeMetrics
    ensures |r| == |ms|
  {
    seq(|ms|, k requires 0 <= k < |ms| => MetricItem(ms[k]))
  }

  predicate InCatalog(q: Query) {
    forall m :: m in q.metrics ==> m in SafeMetrics
  }

  /** The SELECT list; with nothing to select it falls back to the shipped amount. */
  function SelectList(q: Query): (r: seq<string>)
    requires InCatalog(q)
    ensures r != []
  {
    if q.groupCols == [] && q.metrics == [] then [MetricItem(DefaultMetric)]
    else QuoteAll(q.groupCols) + MetricItems(q.metrics)
  }

  function PredicateText(p: Predicate): string {
    match p
    case AtLeastDate(v) => DateTerm + " >= DATE " + SqlLiteral(v)
    case AtMostDate(v) => DateTerm + " <= DATE " + SqlLiteral(v)
    case IsOneOf(col, vals) => Quote(col) + " IN (" + Join(Literals(vals), ",") + ")"
    case EqualTo(col, val) => Quote(col) + " = " + SqlLiteral(val)
  }

  function PredicateTexts(ps: seq<Predicate>): (r: seq<string>)
    ensures |r| == |ps|
  {
    seq(|ps|, k requires 0 <= k < |ps| => PredicateText(ps[k]))
  }

  function OrderText(t: OrderTerm): string {
    match t.key
    case ColumnKey(c) => Quote(c) + " " + t.dir
    case MetricKey(m) => m + " " + t.dir
  }

  function OrderTexts(ts: seq<OrderTerm>): (r: seq<string>)
    ensures |r| == |ts|
  {
    seq(|ts|, k requires 0 <= k < |ts| => OrderText(ts[k]))
  }

  /** The statement text built from its parts, clause by clause. */
  function Statement(select: seq<string>, where: seq<string>, group: seq<string>, order: seq<string>, limit: int): string {
    "SELECT " + Join(select, ", ") + "\nFROM sales\n"
    + Clause("WHERE ", where, " AND ") + Clause("GROUP BY ", group, ", ") + Clause("ORDER BY ", order, ", ")
    + ("LIMIT " + IntToString(limit))
  }

  /** An optional clause: nothing at all when it has no parts. */
  function Clause(keyword: string, parts: seq<string>, sep: string): string {
    if parts == [] then "" else keyword + Join(parts, sep) + "\n"
  }

  /** The statement text of a query. */
  function Render(q: Query): string
    requires InCatalog(q)
  {
    Statement(SelectList(q), PredicateTexts(q.preds), QuoteAll(q.groupCols), OrderTexts(q.order), q.limit)
  }

  /** `build_sql(plan, schema_cols)`. */
  function Compile(plan: Value, cols: seq<string>): Result<string, Exc> {
    var q :- PlanQuery(plan, cols);
    Success(Render(q))
  }

  // ---------------------------------------------------------------- the loops

  lemma {:induction false} CatalogMetricsStops(items: seq<Value>, k: int)
    requires 0 <= k < |items| && !Hashable(items[k])
    ensures CatalogMetrics(items) == Failure(TypeError)
  {
  }

  lemma {:induction false} SortTermsStops(items: seq<Value>, cols: seq<string>, k: int)
    requires 0 <= k < |items|
    requires SortTerms(items[..k], cols).Success? && SortTerm(items[k], cols).Failure?
    ensures SortTerms(items, cols) == Failure(SortTerm(items[k], cols).error)
    decreases |items|
  {
    if k < |items| - 1 {
      var init := items[..|items| - 1];
      assert init[..k] == items[..k] && init[k] == items[k];
      SortTermsStops(init, cols, k);
    } else {
      assert items[..|items| - 1] == items[..k];
    }
  }

  /** The query `PlanQuery` builds once every plan field has been read successfully. */
  lemma PlanQueryIs(plan: Value, cols: seq<string>, limit: int, groupItems: seq<Value>,
                    metricItems: seq<Value>, sortItems: seq<Value>, q: Query)
    requires plan.Dict?
    requires LimitOf(plan.entries) == Success(limit)
    requires GroupItemsOf(plan.entries) == Success(groupItems)
    requires MetricItemsOf(plan.entries) == Success(metricItems)
    requires CatalogMetrics(metricItems) == Success(q.metrics)
    requires TimeOf(plan.entries).Dict? && FiltersOf(plan.entries).Dict?
    requires SortItemsOf(plan.entries) == Success(sortItems)
    requires SortTerms(sortItems, cols) == Success(q.order)
    requires q.groupCols == GroupColumns(groupItems, cols) && q.limit == Clamp(limit)
    requires q.preds == DatePredicates(TimeOf(plan.entries).entries) + FilterPredicates(FiltersOf(plan.entries).entries, cols)
    ensures PlanQuery(plan, cols) == Success(q)
  {
  }

  /** The group-by loop of `build_sql`: quoted known columns, in plan order. */
  method GroupParts(items: seq<Value>, cols: seq<string>) returns (parts: seq<string>)
    ensures parts == QuoteAll(GroupColumns(items, cols))
  {
    parts := [];
    for i := 0 to |items|
      invariant parts == QuoteAll(GroupColumns(items[..i], cols))
    {
      var col := items[i];
      assert items[..i + 1][..i] == items[..i];
      if IsIn(col, cols) {
        parts := parts + [Quote(col.s)];
      }
    }
    assert items[..|items|] == items;
  }

  /** The metric loop of `build_sql`: one `expr AS name` item per catalogued name. */
  method MetricParts(items: seq<Value>) returns (r: Result<seq<string>, Exc>)
    ensures CatalogMetrics(items).Failure? ==> r == Failure(TypeError)
    ensures CatalogMetrics(items).Success? ==> r == Success(MetricItems(CatalogMetrics(items).value))
  {
    var parts: seq<string> := [];
    ghost var names: seq<string> := [];
    for i := 0 to |items|
      invariant CatalogMetrics(items[..i]) == Success(names)
      invariant parts == MetricItems(names)
    {
      var m := items[i];
      assert items[..i + 1][..i] == items[..i];
      if !Hashable(m) {
        CatalogMetricsStops(items, i);
        return Failure(TypeError);
      }
      assert items[..i + 1][i] == m;
      assert CatalogMetrics(items[..i + 1])
        == Success(names + (if m.Str? && m.s in SafeMetrics then [m.s] else []));
      if m.Str? && m.s in SafeMetrics {
        assert MetricItems(names + [m.s]) == MetricItems(names) + [MetricItem(m.s)];
        parts := parts + [SafeMetrics[m.s] + " AS " + m.s];
        names := names + [m.s];
      } else {
        assert names + [] == names;
      }
    }
    assert items[..|items|] == items;
    return Success(parts);
  }

  lemma FilterStep(pre: seq<Predicate>, entries: seq<(string, Value)>, cols: seq<string>, i: int)
    requires 0 <= i < |entries|
    ensures PredicateTexts(pre + FilterPredicates(entries[..i + 1], cols))
      == PredicateTexts(pre + FilterPredicates(entries[..i], cols))
         + (if entries[i].0 in cols then [PredicateText(FilterPredicate(entries[i].0, entries[i].1))] else [])
  {
    assert entries[..i + 1][..i] == entries[..i];
    var before := pre + FilterPredicates(entries[..i], cols);
    if entries[i].0 in cols {
      var p := FilterPredicate(entries[i].0, entries[i].1);
      assert pre + FilterPredicates(entries[..i + 1], cols) == before + [p];
      assert PredicateTexts(before + [p]) == PredicateTexts(before) + [PredicateText(p)];
    } else {
      assert pre + FilterPredicates(entries[..i + 1], cols) == before;
    }
  }

  /** The date tests of `build_sql`: a lower bound, then an upper bound, each only when truthy. */
  method DateParts(time: seq<(string, Value)>) returns (parts: seq<string>)
    ensures parts == PredicateTexts(DatePredicates(time))
  {
    parts := [];
    var dateFrom := Get(time, "from");
    var dateTo := Get(time, "to");
    if dateFrom.Some? && Truthy(dateFrom.value) {
      parts := parts + [DateTerm + " >= DATE " + SqlLiteral(dateFrom.value)];
    }
    if dateTo.Some? && Truthy(dateTo.value) {
      parts := parts + [DateTerm + " <= DATE " + SqlLiteral(dateTo.value)];
    }
  }

  /** The filter loop of `build_sql`, after the date tests. */
  method WhereParts(time: seq<(string, Value)>, entries: seq<(string, Value)>, cols: seq<string>)
    returns (parts: seq<string>)
    ensures parts == PredicateTexts(DatePredicates(time) + FilterPredicates(entries, cols))
  {
    parts := DateParts(time);
    ghost var datePreds := DatePredicates(time);
    for i := 0 to |entries|
      invariant parts == PredicateTexts(datePreds + FilterPredicates(entries[..i], cols))
    {
      var (col, val) := entries[i];
      FilterStep(datePreds, entries, cols, i);
      if col !in cols {
        continue;
      }
      if val.List? {
        var vals := Join(Literals(val.items), ",");
        parts := parts + [Quote(col) + " IN (" + vals + ")"];
      } else {
        parts := parts + [Quote(col) + " = " + SqlLiteral(val)];
      }
    }
    assert entries[..|entries|] == entries;
  }

  /** The sort loop of `build_sql`. */
  method OrderParts(items: seq<Value>, cols: seq<string>) returns (r: Result<seq<string>, Exc>)
    ensures SortTerms(items, cols).Failure? ==> r == Failure(SortTerms(items, cols).error)
    ensures SortTerms(items, cols).Success? ==> r == Success(OrderTexts(SortTerms(items, cols).value))
  {
    var parts: seq<string> := [];
    ghost var terms: seq<OrderTerm> := [];
    for i := 0 to |items|
      invariant SortTerms(items[..i], cols) == Success(terms)
      invariant parts == OrderTexts(terms)
    {
      var s := items[i];
      assert items[..i + 1][..i] == items[..i];
      assert items[..i + 1][i] == s;
      if !s.Dict? {
        SortTermsStops(items, cols, i);
        return Failure(AttributeError);
      }
      assert SortTerms(items[..i + 1], cols) == (
        var t :- SortTerm(s, cols);
        Success(terms + (if t.Some? then [t.value] else [])));
      var key := Get(s.entries, "by").GetOr(Null);
      var order := Or(Get(s.entries, "order"), Str("desc"));
      if !order.Str? {
        SortTermsStops(items, cols, i);
        return Failure(AttributeError);
      }
      var lowered := Lower(order.s);
      if IsIn(key, cols) {
        ghost var t := OrderTerm(ColumnKey(key.s), Upper(lowered));
        assert OrderTexts(terms + [t]) == OrderTexts(terms) + [OrderText(t)];
        parts := parts + [Quote(key.s) + " " + Upper(lowered)];
        terms := terms + [t];
      } else if !Hashable(key) {
        SortTermsStops(items, cols, i);
        return Failure(TypeError);
      } else if key.Str? && key.s in SafeMetrics {
        ghost var t := OrderTerm(MetricKey(key.s), Upper(lowered));
        assert OrderTexts(terms + [t]) == OrderTexts(terms) + [OrderText(t)];
        parts := parts + [key.s + " " + Upper(lowered)];
        terms := terms + [t];
      } else {
        assert terms + [] == terms;
      }
    }
    assert items[..|items|] == items;
    return Success(parts);
  }

  /** The text assembly of `build_sql`: each clause is appended only when it has parts. */
  method Assemble(select: seq<string>, where: seq<string>, group: seq<string>, order: seq<string>, limit: int)
    returns (sql: string)
    ensures sql == Statement(select, where, group, order, limit)
  {
    sql := "SELECT " + Join(select, ", ") + "\nFROM sales\n";
    ghost var text := sql;
    if where != [] {
      sql := sql + ("WHERE " + Join(where, " AND ") + "\n");
    }
    text := text + Clause("WHERE ", where, " AND ");
    assert sql == text;
    if group != [] {
      sql := sql + ("GROUP BY " + Join(group, ", ") + "\n");
    }
    text := text + Clause("GROUP BY ", group, ", ");
    assert sql == text;
    if order != [] {
      sql := sql + ("ORDER BY " + Join(order, ", ") + "\n");
    }
    text := text + Clause("ORDER BY ", order, ", ");
    assert sql == text;
    sql := sql + ("LIMIT " + IntToString(limit));
  }

  /** `build_sql`, as the source computes it. */
  method BuildSql(plan: Value, cols: seq<string>) returns (r: Result<string, Exc>)
    ensures r == Compile(plan, cols)
  {
    if !plan.Dict? {
      return Failure(AttributeError);
    }
    var d := plan.entries;
    var filters := FiltersOf(d);
    var sort := Or(Get(d, "sort"), List([]));
    var limit :- LimitOf(d);

    var groupItems :- GroupItemsOf(d);
    var groupParts := GroupParts(groupItems, cols);
    var metricItems :- MetricItemsOf(d);
    var metricParts :- MetricParts(metricItems);
    var selectParts := groupParts + metricParts;
    if selectParts == [] {
      selectParts := [SafeMetrics[DefaultMetric] + " AS " + DefaultMetric];
    }

    var time := TimeOf(d);
    if !time.Dict? {
      return Failure(AttributeError);
    }
    if !filters.Dict? {
      return Failure(AttributeError);
    }
    var whereParts := WhereParts(time.entries, filters.entries, cols);

    var orderParts: seq<string> := [];
    var sortItems: seq<Value> := [];
    if Truthy(sort) {
      sortItems :- SortItemsOf(d);
      orderParts :- OrderParts(sortItems, cols);
    }
    var sql := Assemble(selectParts, whereParts, groupParts, orderParts, Clamp(limit));

    ghost var q := Query(GroupColumns(groupItems, cols), CatalogMetrics(metricItems).value,
      DatePredicates(time.entries) + FilterPredicates(filters.entries, cols),
      SortTerms(sortItems, cols).value, Clamp(limit));
    assert SortItemsOf(d) == Success(sortItems);
    PlanQueryIs(plan, cols, limit, groupItems, metricItems, sortItems, q);
    assert selectParts == SelectList(q);
    return Success(sql);
  }
}
