/**
 * The two guards around the compiler: `validate_plan`, which normalises
 * whatever the planner produced into a plan the compiler can use, and
 * `validate_sql_is_select`, the textual gate every statement passes before
 * it is executed.
 */
module Validators {
  import opened Wrappers
  import opened Strings
  import opened Values
  import opened SqlBuilder

  // ---------------------------------------------------------------- the statement gate

  const OnlySelectMessage: string := "Only SELECT queries are allowed."
  const UnsafeMessage: string := "Potentially unsafe SQL detected."

  /** Words whose appearance anywhere in the lower-cased statement rejects it. */
  const Banned: seq<string> := ["insert", "update", "delete", "drop", "alter", "create", "attach", "copy", "pragma"]

  /** `(sql or '').strip().lower()`. */
  function Normalized(sql: Option<string>): string {
    Lower(Strip(sql.GetOr("")))
  }

  /** `any(b in s for b in banned)`. */
  predicate HasBannedWord(s: string) {
    exists b :: b in Banned && Contains(s, b)
  }

  /** `validate_sql_is_select`: passes, or raises `ValueError` with the reason. */
  function ValidateSqlIsSelect(sql: Option<string>): (r: Outcome<Exc>)
    ensures r == Pass <==> StartsWith(Normalized(sql), "select") && !HasBannedWord(Normalized(sql))
    ensures r == Fail(ValueError(OnlySelectMessage)) <==> !StartsWith(Normalized(sql), "select")
    ensures r == Fail(ValueError(UnsafeMessage)) <==> StartsWith(Normalized(sql), "select") && HasBannedWord(Normalized(sql))
  {
    var s := Normalized(sql);
    if !StartsWith(s, "select") then Fail(ValueError(OnlySelectMessage))
    else if HasBannedWord(s) then Fail(ValueError(UnsafeMessage))
    else Pass
  }

  /** The gate does not care about letter case: a statement and its lower-cased form fare alike. */
  lemma GateIgnoresCase(sql: string)
    ensures ValidateSqlIsSelect(Some(Lower(sql))) == ValidateSqlIsSelect(Some(sql))
  {
    StripLower(sql);
    LowerIdempotent(Strip(sql));
  }

  /** Neither a missing statement nor an empty one gets through. */
  lemma GateRejectsNothing()
    ensures ValidateSqlIsSelect(None) == Fail(ValueError(OnlySelectMessage))
    ensures ValidateSqlIsSelect(Some("")) == Fail(ValueError(OnlySelectMessage))
  {
    assert Normalized(None) == Normalized(Some("")) == [];
  }

  /** A statement with no surrounding whitespace is only lower-cased, piece by piece. */
  lemma NormalizedPieces(head: string, mid: string, tail: string)
    requires Trimmed(head + mid + tail)
    ensures Normalized(Some(head + mid + tail)) == Lower(head) + Lower(mid) + Lower(tail)
  {
    StripKeepsTrimmed(head + mid + tail);
    LowerAppend(head, mid);
    LowerAppend(head + mid, tail);
  }

  /**
   * A statement that opens with `select` but carries a banned word anywhere
   * in its middle part, in any letter case, is refused as unsafe.
   */
  lemma GateRejectsBannedInside(head: string, mid: string, tail: string, w: string)
    requires Trimmed(head + mid + tail)
    requires StartsWith(Lower(head), "select")
    requires w in Banned && Contains(Lower(mid), w)
    ensures ValidateSqlIsSelect(Some(head + mid + tail)) == Fail(ValueError(UnsafeMessage))
  {
    NormalizedPieces(head, mid, tail);
    var n := Normalized(Some(head + mid + tail));
    ContainsInside(Lower(head), Lower(mid), Lower(tail), w);
    assert n[..6] == Lower(head)[..6];
  }

  /**
   * The banned words are matched anywhere, not as whole words: a read-only
   * query over a column named `created_at` is refused because it contains
   * `create`.
   */
  lemma GateRejectsCreatedAt()
    ensures ValidateSqlIsSelect(Some("select" + " created_at" + " from sales")) == Fail(ValueError(UnsafeMessage))
  {
    var head, mid, tail := "select", " created_at", " from sales";
    assert (head + mid + tail)[0] == 's';
    assert (head + mid + tail)[|head + mid + tail| - 1] == 's';
    assert Lower(head) == head;
    assert Lower(mid)[1..7] == "create";
    assert OccursAt(Lower(mid), "create", 1);
    GateRejectsBannedInside(head, mid, tail, "create");
  }

  // ---------------------------------------------------------------- the plan validator

  const NotJsonWarning: string := "Planner did not return JSON; using default plan."
  const YoYWarning: string := "YoY requires multiple years; this dataset may not support true YoY."

  /** The keys `validate_plan` writes; every other key is left as it was. */
  const ManagedKeys: set<string> := {"intent", "group_by", "metrics", "filters", "time", "limit"}

  /** `{k: v for k, v in filters.items() if k in schema_cols}`. */
  function KnownEntries(entries: seq<(string, Value)>, cols: seq<string>): (r: seq<(string, Value)>)
    ensures |r| <= |entries|
    ensures forall e :: e in r ==> e in entries && e.0 in cols
  {
    if entries == [] then []
    else
      var last := entries[|entries| - 1];
      KnownEntries(entries[..|entries| - 1], cols) + (if last.0 in cols then [last] else [])
  }

  // What validate_plan reads from the plan `d` (`{}` when the planner's output was not a dict).

  function PlanEntries(plan: Value): seq<(string, Value)> {
    if plan.Dict? then plan.entries else []
  }

  /** `group_by`: the field when it is a non-empty list, otherwise `[]`. */
  function GroupInput(d: seq<(string, Value)>): seq<Value> {
    var g := Or(Get(d, "group_by"), List([]));
    if g.List? then g.items else []
  }

  /** `metrics`: the field when it is a non-empty list, otherwise `[]`. */
  function MetricInput(d: seq<(string, Value)>): seq<Value> {
    var m := Or(Get(d, "metrics"), List([]));
    if m.List? then m.items else []
  }

  /** `filters`: the field's entries when it is a non-empty dict, otherwise none. */
  function FilterInput(d: seq<(string, Value)>): seq<(string, Value)> {
    var f := Or(Get(d, "filters"), Dict([]));
    if f.Dict? then f.entries else []
  }

  /** `time`: the field when it is a dict (empty or not), with `from` and `to` defaulted to `None`. */
  function TimeOutput(d: seq<(string, Value)>): seq<(string, Value)> {
    var t := Or(Get(d, "time"), Dict([]));
    var entries := if t.Dict? then t.entries else [("from", Null), ("to", Null)];
    SetDefault(SetDefault(entries, "from", Null), "to", Null)
  }

  /** `int(plan.get('limit') or 10)`, or 10 when `int` raises. */
  function LimitInput(d: seq<(string, Value)>): int {
    match ToInt(Or(Get(d, "limit"), Int(DefaultLimit)))
    case Success(n) => n
    case Failure(_) => DefaultLimit
  }

  /** `plan.get('notes') or ''`. */
  function NotesInput(d: seq<(string, Value)>): Value {
    Or(Get(d, "notes"), Str(""))
  }

  predicate MentionsYoY(notes: string) {
    Contains(Lower(notes), "yoy") || Contains(Lower(notes), "year over year")
  }

  /** The catalogued metrics of the plan, or the shipped amount when there are none. */
  function MetricsOutput(names: seq<string>): (r: seq<string>)
    ensures r != []
  {
    if names == [] then [DefaultMetric] else names
  }

  /** The warnings `validate_plan` returns, in order. */
  function Warnings(plan: Value): seq<string> {
    var notes := NotesInput(PlanEntries(plan));
    (if plan.Dict? then [] else [NotJsonWarning])
    + (if notes.Str? && MentionsYoY(notes.s) then [YoYWarning] else [])
  }

  /** The plan `validate_plan` makes of a non-dict. */
  const DefaultPlan: seq<(string, Value)> := [
    ("intent", Str("qa")),
    ("group_by", List([])),
    ("metrics", List([Str(DefaultMetric)])),
    ("filters", Dict([])),
    ("time", Dict([("from", Null), ("to", Null)])),
    ("limit", Int(DefaultLimit))]

  /** `group_by` of a validated plan: a list of columns the schema knows. */
  ghost predicate KnownColumns(v: Option<Value>, cols: seq<string>) {
    v.Some? && v.value.List? && forall c :: c in v.value.items ==> IsIn(c, cols)
  }

  /** `metrics` of a validated plan: a non-empty list of catalogued names. */
  ghost predicate KnownMetrics(v: Option<Value>) {
    v.Some? && v.value.List? && v.value.items != []
    && forall m :: m in v.value.items ==> m.Str? && m.s in SafeMetrics
  }

  /** `filters` of a validated plan: a dict keyed by columns the schema knows. */
  ghost predicate KnownFilters(v: Option<Value>, cols: seq<string>) {
    v.Some? && v.value.Dict? && forall e :: e in v.value.entries ==> e.0 in cols
  }

  /** `time` of a validated plan: a dict with both ends present. */
  ghost predicate Window(v: Option<Value>) {
    v.Some? && v.value.Dict? && Get(v.value.entries, "from").Some? && Get(v.value.entries, "to").Some?
  }

  /** `limit` of a validated plan: an integer from 1 to 200. */
  ghost predicate InRange(v: Option<Value>) {
    v.Some? && v.value.Int? && 1 <= v.value.i <= MaxLimit
  }

  /** What a validated plan looks like. */
  ghost predicate Validated(p: Value, cols: seq<string>) {
    p.Dict?
    && Get(p.entries, "intent") == Some(Str("qa"))
    && KnownColumns(Get(p.entries, "group_by"), cols)
    && KnownMetrics(Get(p.entries, "metrics"))
    && KnownFilters(Get(p.entries, "filters"), cols)
    && Window(Get(p.entries, "time"))
    && InRange(Get(p.entries, "limit"))
    && NotesInput(p.entries).Str?
  }

  lemma GroupColumnsKnown(items: seq<Value>, cols: seq<string>)
    ensures KnownColumns(Some(List(Strs(GroupColumns(items, cols)))), cols)
  {
    var g := GroupColumns(items, cols);
    forall c | c in Strs(g) ensures IsIn(c, cols) {
      var k :| 0 <= k < |g| && Strs(g)[k] == c;
      assert g[k] in g;
    }
  }

  lemma MetricsKnown(names: seq<string>)
    requires forall n :: n in names ==> n in SafeMetrics
    ensures KnownMetrics(Some(List(Strs(MetricsOutput(names)))))
  {
    var ms := MetricsOutput(names);
    forall m | m in Strs(ms) ensures m.Str? && m.s in SafeMetrics {
      var k :| 0 <= k < |ms| && Strs(ms)[k] == m;
      assert ms[k] in ms;
    }
  }

  lemma TimeIsWindow(d: seq<(string, Value)>)
    ensures Window(Some(Dict(TimeOutput(d))))
  {
  }

  /**
   * The fields of `e`, the validated plan, as `validate_plan` derives them
   * from `d`, the plan it was given; every other key keeps its value.
   */
  ghost predicate Normalises(d: seq<(string, Value)>, e: seq<(string, Value)>, cols: seq<string>)
    requires CatalogMetrics(MetricInput(d)).Success?
  {
    Get(e, "intent") == Some(Str("qa"))
    && Get(e, "group_by") == Some(List(Strs(GroupColumns(GroupInput(d), cols))))
    && Get(e, "metrics") == Some(List(Strs(MetricsOutput(CatalogMetrics(MetricInput(d)).value))))
    && Get(e, "filters") == Some(Dict(KnownEntries(FilterInput(d), cols)))
    && Get(e, "time") == Some(Dict(TimeOutput(d)))
    && Get(e, "limit") == Some(Int(Clamp(LimitInput(d))))
    && (forall k :: k !in ManagedKeys ==> Get(e, k) == Get(d, k))
  }

  /** Whatever the planner produced, a plan that `validate_plan` returns is valid. */
  lemma NormalisedIsValidated(d: seq<(string, Value)>, e: seq<(string, Value)>, cols: seq<string>)
    requires CatalogMetrics(MetricInput(d)).Success? && Normalises(d, e, cols)
    requires NotesInput(d).Str?
    ensures Validated(Dict(e), cols)
  {
    assert KnownColumns(Get(e, "group_by"), cols) by {
      GroupColumnsKnown(GroupInput(d), cols);
    }
    assert KnownMetrics(Get(e, "metrics")) by {
      MetricsKnown(CatalogMetrics(MetricInput(d)).value);
    }
    assert Window(Get(e, "time")) by {
      TimeIsWindow(d);
    }
    assert NotesInput(e).Str? by {
      NotesKept(d, e);
    }
  }

  lemma NotesUnmanaged()
    ensures "notes" !in ManagedKeys
  {
  }

  lemma NotesKept(d: seq<(string, Value)>, e: seq<(string, Value)>)
    requires forall k :: k !in ManagedKeys ==> Get(e, k) == Get(d, k)
    ensures NotesInput(e) == NotesInput(d)
  {
    NotesUnmanaged();
  }

  /** Lines 23-26 of `validate_plan`: keep the listed columns the schema knows. */
  method NormaliseGroupBy(d: seq<(string, Value)>, cols: seq<string>) returns (e: seq<(string, Value)>)
    ensures Get(e, "group_by") == Some(List(Strs(GroupColumns(GroupInput(d), cols))))
    ensures forall k :: k != "group_by" ==> Get(e, k) == Get(d, k)
  {
    var groupBy := Or(Get(d, "group_by"), List([]));
    if !groupBy.List? {
      groupBy := List([]);
    }
    e := Put(d, "group_by", List(Strs(GroupColumns(groupBy.items, cols))));
  }

  /** Lines 28-34 of `validate_plan`: keep the catalogued metrics, or fall back to the shipped amount. */
  method NormaliseMetrics(d: seq<(string, Value)>) returns (r: Result<seq<(string, Value)>, Exc>)
    ensures r.Failure? <==> CatalogMetrics(MetricInput(d)).Failure?
    ensures r.Failure? ==> r.error == TypeError
    ensures r.Success? ==>
      Get(r.value, "metrics") == Some(List(Strs(MetricsOutput(CatalogMetrics(MetricInput(d)).value))))
      && forall k :: k != "metrics" ==> Get(r.value, k) == Get(d, k)
  {
    var metrics := Or(Get(d, "metrics"), List([]));
    if !metrics.List? {
      metrics := List([]);
    }
    var cleaned :- CatalogMetrics(metrics.items);
    if cleaned == [] {
      cleaned := [DefaultMetric];
    }
    return Success(Put(d, "metrics", List(Strs(cleaned))));
  }

  /** Lines 36-39 of `validate_plan`: keep the filters on columns the schema knows. */
  method NormaliseFilters(d: seq<(string, Value)>, cols: seq<string>) returns (e: seq<(string, Value)>)
    ensures Get(e, "filters") == Some(Dict(KnownEntries(FilterInput(d), cols)))
    ensures forall k :: k != "filters" ==> Get(e, k) == Get(d, k)
  {
    var filters := Or(Get(d, "filters"), Dict([]));
    if !filters.Dict? {
      filters := Dict([]);
    }
    e := Put(d, "filters", Dict(KnownEntries(filters.entries, cols)));
  }

  /** Lines 41-46 of `validate_plan`: make sure the time window has both ends. */
  method NormaliseTime(d: seq<(string, Value)>) returns (e: seq<(string, Value)>)
    ensures Get(e, "time") == Some(Dict(TimeOutput(d)))
    ensures forall k :: k != "time" ==> Get(e, k) == Get(d, k)
  {
    var time := Or(Get(d, "time"), Dict([]));
    if !time.Dict? {
      time := Dict([("from", Null), ("to", Null)]);
    }
    var t := SetDefault(time.entries, "from", Null);
    t := SetDefault(t, "to", Null);
    e := Put(d, "time", Dict(t));
  }

  /** Lines 48-52 of `validate_plan`: parse the limit, defaulting to 10, and clamp it to 1..200. */
  method NormaliseLimit(d: seq<(string, Value)>) returns (e: seq<(string, Value)>)
    ensures Get(e, "limit") == Some(Int(Clamp(LimitInput(d))))
    ensures forall k :: k != "limit" ==> Get(e, k) == Get(d, k)
  {
    var parsed := ToInt(Or(Get(d, "limit"), Int(DefaultLimit)));
    if parsed.Success? {
      e := Put(d, "limit", Int(parsed.value));
    } else {
      e := Put(d, "limit", Int(DefaultLimit));
    }
    e := Put(e, "limit", Int(Clamp(Get(e, "limit").value.i)));
  }

  /**
   * The six updates of `validate_plan`, each of which changes one key: the
   * last plan still has what each update wrote, and every key none of them
   * writes is as it was.
   */
  lemma Untouched(d0: seq<(string, Value)>, d1: seq<(string, Value)>, d2: seq<(string, Value)>,
                  d3: seq<(string, Value)>, d4: seq<(string, Value)>, d5: seq<(string, Value)>,
                  d6: seq<(string, Value)>)
    requires forall k {:trigger Get(d1, k)} :: k != "intent" ==> Get(d1, k) == Get(d0, k)
    requires forall k {:trigger Get(d2, k)} :: k != "group_by" ==> Get(d2, k) == Get(d1, k)
    requires forall k {:trigger Get(d3, k)} :: k != "metrics" ==> Get(d3, k) == Get(d2, k)
    requires forall k {:trigger Get(d4, k)} :: k != "filters" ==> Get(d4, k) == Get(d3, k)
    requires forall k {:trigger Get(d5, k)} :: k != "time" ==> Get(d5, k) == Get(d4, k)
    requires forall k {:trigger Get(d6, k)} :: k != "limit" ==> Get(d6, k) == Get(d5, k)
    ensures Get(d6, "intent") == Get(d1, "intent")
    ensures Get(d6, "group_by") == Get(d2, "group_by")
    ensures Get(d6, "metrics") == Get(d3, "metrics")
    ensures Get(d6, "filters") == Get(d4, "filters")
    ensures Get(d6, "time") == Get(d5, "time")
    ensures forall k :: k !in ManagedKeys ==> Get(d6, k) == Get(d0, k)
  {
  }

  /** What each update of `validate_plan` reads is still what the plan held on entry. */
  lemma Unread(d0: seq<(string, Value)>, d1: seq<(string, Value)>, d2: seq<(string, Value)>,
               d3: seq<(string, Value)>, d4: seq<(string, Value)>, d5: seq<(string, Value)>)
    requires forall k {:trigger Get(d1, k)} :: k != "intent" ==> Get(d1, k) == Get(d0, k)
    requires forall k {:trigger Get(d2, k)} :: k != "group_by" ==> Get(d2, k) == Get(d1, k)
    requires forall k {:trigger Get(d3, k)} :: k != "metrics" ==> Get(d3, k) == Get(d2, k)
    requires forall k {:trigger Get(d4, k)} :: k != "filters" ==> Get(d4, k) == Get(d3, k)
    requires forall k {:trigger Get(d5, k)} :: k != "time" ==> Get(d5, k) == Get(d4, k)
    ensures GroupInput(d1) == GroupInput(d0)
    ensures MetricInput(d2) == MetricInput(d0)
    ensures FilterInput(d3) == FilterInput(d0)
    ensures TimeOutput(d4) == TimeOutput(d0)
    ensures LimitInput(d5) == LimitInput(d0)
  {
    assert Get(d1, "group_by") == Get(d0, "group_by");
    assert Get(d2, "metrics") == Get(d0, "metrics");
    assert Get(d3, "filters") == Get(d0, "filters");
    assert Get(d4, "time") == Get(d0, "time");
    assert Get(d5, "limit") == Get(d0, "limit");
  }

  /**
   * What lines 21-26 of `validate_plan` leave in `e`, the caller's dict, when
   * the metrics step then raises: the intent and the known group columns are
   * written, and every other key is as it was in `d`.
   */
  ghost predicate GroupedOnly(d: seq<(string, Value)>, e: seq<(string, Value)>, cols: seq<string>) {
    Get(e, "intent") == Some(Str("qa"))
    && Get(e, "group_by") == Some(List(Strs(GroupColumns(GroupInput(d), cols))))
    && forall k :: k != "intent" && k != "group_by" ==> Get(e, k) == Get(d, k)
  }

  /**
   * The caller's dict after `validate_plan` raised on `d`: the updates made
   * before the raise stay. An unhashable metric stops it after the group
   * columns; text-less notes stop it after all six updates.
   */
  ghost predicate LeftBehind(d: seq<(string, Value)>, e: seq<(string, Value)>, cols: seq<string>) {
    if CatalogMetrics(MetricInput(d)).Failure? then GroupedOnly(d, e, cols) else Normalises(d, e, cols)
  }

  /**
   * Lines 21-52 of `validate_plan`: the six updates, in the source's order,
   * made to the dict in place; `left` is the dict as they leave it, also
   * when the metrics step raises.
   */
  method NormaliseFields(d0: seq<(string, Value)>, cols: seq<string>)
    returns (r: Result<seq<(string, Value)>, Exc>, left: seq<(string, Value)>)
    ensures r.Failure? <==> CatalogMetrics(MetricInput(d0)).Failure?
    ensures r.Failure? ==> r.error == TypeError && GroupedOnly(d0, left, cols)
    ensures r.Success? ==> left == r.value && CatalogMetrics(MetricInput(d0)).Success? && Normalises(d0, left, cols)
  {
    var d := Put(d0, "intent", Str("qa"));
    ghost var d1 := d;
    d := NormaliseGroupBy(d, cols);
    ghost var d2 := d;
    assert Get(d2, "metrics") == Get(d1, "metrics") == Get(d0, "metrics");
    var metrics := NormaliseMetrics(d);
    if metrics.Failure? {
      assert Get(d2, "group_by") == Some(List(Strs(GroupColumns(GroupInput(d1), cols))));
      assert GroupInput(d1) == GroupInput(d0) by {
        assert Get(d1, "group_by") == Get(d0, "group_by");
      }
      return Failure(metrics.error), d;
    }
    d := metrics.value;
    ghost var d3 := d;
    d := NormaliseFilters(d, cols);
    ghost var d4 := d;
    d := NormaliseTime(d);
    ghost var d5 := d;
    d := NormaliseLimit(d);
    Unread(d0, d1, d2, d3, d4, d5);
    Untouched(d0, d1, d2, d3, d4, d5, d);
    return Success(d), d;
  }

  /**
   * `validate_plan(plan, schema_cols)`: the plan normalised field by field,
   * and the warnings for the user. Raises `TypeError` when a metric element
   * is unhashable and `AttributeError` when the notes are truthy but not text.
   * A dict plan is updated in place, so `after` is the caller's plan as the
   * call leaves it, whether it returns or raises.
   */
  method ValidatePlan(plan: Value, cols: seq<string>) returns (r: Result<(Value, seq<string>), Exc>, after: Value)
    ensures var d := PlanEntries(plan);
      r.Failure? <==> CatalogMetrics(MetricInput(d)).Failure? || !NotesInput(d).Str?
    ensures var d := PlanEntries(plan);
      r.Failure? ==> r.error == (if CatalogMetrics(MetricInput(d)).Failure? then TypeError else AttributeError)
    ensures r.Success? ==>
      CatalogMetrics(MetricInput(PlanEntries(plan))).Success?
      && r.value.0.Dict? && Normalises(PlanEntries(plan), r.value.0.entries, cols)
      && r.value.1 == Warnings(plan)
    ensures r.Success? ==> Validated(r.value.0, cols)
    ensures r.Failure? ==> plan.Dict? && plan.entries != [] && after.Dict? && LeftBehind(plan.entries, after.entries, cols)
    ensures r.Success? && plan.Dict? ==> after == r.value.0
    ensures !plan.Dict? ==> after == plan
  {
    var d, warnings := PlanOrDefault(plan);
    ghost var d0 := d;
    var normalised, left := NormaliseFields(d, cols);
    after := if plan.Dict? then Dict(left) else plan;
    if normalised.Failure? {
      return Failure(normalised.error), after;
    }
    d := normalised.value;
    NotesKept(d0, d);

    var notes := Or(Get(d, "notes"), Str(""));
    if !notes.Str? {
      return Failure(AttributeError), after;
    }
    var yoy := NotesWarning(notes.s);
    NormalisedIsValidated(d0, d, cols);
    return Success((Dict(d), warnings + yoy)), after;
  }

  /** Lines 17-19 of `validate_plan`: a non-dict plan is replaced by `{}`, with a warning. */
  method PlanOrDefault(plan: Value) returns (d: seq<(string, Value)>, warnings: seq<string>)
    ensures d == PlanEntries(plan)
    ensures warnings == if plan.Dict? then [] else [NotJsonWarning]
  {
    warnings := [];
    if !plan.Dict? {
      warnings := warnings + [NotJsonWarning];
      d := [];
    } else {
      d := plan.entries;
    }
  }

  /** Lines 54-56 of `validate_plan`: the warning for notes asking for a year-over-year view. */
  method NotesWarning(notes: string) returns (w: seq<string>)
    ensures w == if MentionsYoY(notes) then [YoYWarning] else []
  {
    w := [];
    var lowered := Lower(notes);
    if Contains(lowered, "yoy") || Contains(lowered, "year over year") {
      w := w + [YoYWarning];
    }
  }
}

/** What follows from the contract of `validate_plan`: its default and its fixed points. */
module ValidatorFacts {
  import opened Wrappers
  import opened Strings
  import opened Values
  import opened SqlBuilder
  import opened Validators

  /** Two plans that agree on the six managed keys and on every other key agree everywhere. */
  lemma SameFields(e: seq<(string, Value)>, f: seq<(string, Value)>)
    requires Get(e, "intent") == Get(f, "intent") && Get(e, "group_by") == Get(f, "group_by")
    requires Get(e, "metrics") == Get(f, "metrics") && Get(e, "filters") == Get(f, "filters")
    requires Get(e, "time") == Get(f, "time") && Get(e, "limit") == Get(f, "limit")
    requires forall k :: k !in ManagedKeys ==> Get(e, k) == Get(f, k)
    ensures forall k :: Get(e, k) == Get(f, k)
  {
    forall k ensures Get(e, k) == Get(f, k) {
      if k in ManagedKeys {
      }
    }
  }

  /** What `validate_plan` reads from an empty plan. */
  lemma EmptyInputs()
    ensures GroupInput([]) == [] && MetricInput([]) == [] && FilterInput([]) == []
    ensures TimeOutput([]) == [("from", Null), ("to", Null)]
    ensures LimitInput([]) == DefaultLimit
    ensures NotesInput([]) == Str("")
    ensures !MentionsYoY("")
  {
    assert Lower("") == "";
  }

  /** Keys other than the managed ones are missing from `DefaultPlan`. */
  lemma DefaultPlanMissing(k: string)
    requires k !in ManagedKeys
    ensures Get(DefaultPlan, k) == None
  {
    GetMissing(DefaultPlan, k);
  }

  /**
   * A planner output that is not a dict is replaced by the default plan:
   * validation succeeds, warns once, and the plan reads as `DefaultPlan`
   * for every key.
   */
  lemma NonDictGivesDefault(plan: Value, e: seq<(string, Value)>, cols: seq<string>)
    requires !plan.Dict?
    ensures CatalogMetrics(MetricInput(PlanEntries(plan))).Success?
    ensures NotesInput(PlanEntries(plan)).Str?
    ensures Warnings(plan) == [NotJsonWarning]
    ensures Normalises(PlanEntries(plan), e, cols) ==> forall k :: Get(e, k) == Get(DefaultPlan, k)
  {
    EmptyInputs();
    if Normalises([], e, cols) {
      assert Strs(MetricsOutput([])) == [Str(DefaultMetric)];
      DefaultPlanFields();
      forall k | k !in ManagedKeys ensures Get(e, k) == Get(DefaultPlan, k) {
        DefaultPlanMissing(k);
      }
      SameFields(e, DefaultPlan);
    }
  }

  /** `DefaultPlan` read key by key. */
  lemma DefaultPlanFields()
    ensures Get(DefaultPlan, "intent") == Some(Str("qa"))
    ensures Get(DefaultPlan, "group_by") == Some(List([]))
    ensures Get(DefaultPlan, "metrics") == Some(List([Str(DefaultMetric)]))
    ensures Get(DefaultPlan, "filters") == Some(Dict([]))
    ensures Get(DefaultPlan, "time") == Some(Dict([("from", Null), ("to", Null)]))
    ensures Get(DefaultPlan, "limit") == Some(Int(DefaultLimit))
  {
    GetAt(DefaultPlan, 2);
    GetAt(DefaultPlan, 3);
    GetAt(DefaultPlan, 4);
    GetAt(DefaultPlan, 5);
  }

  /** Known column values pass the group-by filter unchanged. */
  lemma {:induction false} GroupColumnsOfValidated(items: seq<Value>, cols: seq<string>)
    requires forall c :: c in items ==> IsIn(c, cols)
    ensures Strs(GroupColumns(items, cols)) == items
    decreases |items|
  {
    if items != [] {
      var init := items[..|items| - 1];
      var last := items[|items| - 1];
      assert items == init + [last];
      GroupColumnsOfValidated(init, cols);
      assert last in items;
      assert Strs(GroupColumns(items, cols)) == Strs(GroupColumns(init, cols)) + [last];
    }
  }

  /** Catalogued metric values pass the metric filter unchanged. */
  lemma {:induction false} CatalogMetricsOfValidated(items: seq<Value>)
    requires forall m :: m in items ==> m.Str? && m.s in SafeMetrics
    ensures CatalogMetrics(items).Success? && Strs(CatalogMetrics(items).value) == items
    decreases |items|
  {
    if items != [] {
      var init := items[..|items| - 1];
      var last := items[|items| - 1];
      assert items == init + [last];
      CatalogMetricsOfValidated(init);
      assert last in items;
      assert Strs(CatalogMetrics(items).value) == Strs(CatalogMetrics(init).value) + [last];
    }
  }

  /** Filters on known columns pass the filter step unchanged. */
  lemma {:induction false} KnownEntriesOfValidated(entries: seq<(string, Value)>, cols: seq<string>)
    requires forall e :: e in entries ==> e.0 in cols
    ensures KnownEntries(entries, cols) == entries
    decreases |entries|
  {
    if entries != [] {
      var init := entries[..|entries| - 1];
      assert entries == init + [entries[|entries| - 1]];
      assert entries[|entries| - 1] in entries;
      KnownEntriesOfValidated(init, cols);
    }
  }

  // What `validate_plan` reads from a valid plan is what the plan holds, field by field.

  lemma GroupInputOfValidated(d: seq<(string, Value)>, cols: seq<string>)
    requires KnownColumns(Get(d, "group_by"), cols)
    ensures Strs(GroupColumns(GroupInput(d), cols)) == Get(d, "group_by").value.items
  {
    GroupColumnsOfValidated(Get(d, "group_by").value.items, cols);
  }

  lemma MetricInputOfValidated(d: seq<(string, Value)>)
    requires KnownMetrics(Get(d, "metrics"))
    ensures CatalogMetrics(MetricInput(d)).Success?
    ensures Strs(MetricsOutput(CatalogMetrics(MetricInput(d)).value)) == Get(d, "metrics").value.items
  {
    var ms := Get(d, "metrics").value.items;
    CatalogMetricsOfValidated(ms);
    assert MetricInput(d) == ms;
  }

  lemma FilterInputOfValidated(d: seq<(string, Value)>, cols: seq<string>)
    requires KnownFilters(Get(d, "filters"), cols)
    ensures KnownEntries(FilterInput(d), cols) == Get(d, "filters").value.entries
  {
    KnownEntriesOfValidated(Get(d, "filters").value.entries, cols);
  }

  lemma TimeInputOfValidated(d: seq<(string, Value)>)
    requires Window(Get(d, "time"))
    ensures TimeOutput(d) == Get(d, "time").value.entries
  {
  }

  lemma LimitInputOfValidated(d: seq<(string, Value)>)
    requires InRange(Get(d, "limit"))
    ensures Clamp(LimitInput(d)) == Get(d, "limit").value.i
  {
  }

  /**
   * The validated limit: 10 for a missing or falsy limit and for one `int()`
   * rejects, otherwise the number (or the number a decimal text spells)
   * clamped to 1..200.
   */
  lemma LimitInputRules(d: seq<(string, Value)>)
    ensures var raw := Get(d, "limit");
      (raw.None? || !Truthy(raw.value) ==> Clamp(LimitInput(d)) == DefaultLimit)
      && (raw.Some? && Truthy(raw.value) && ToInt(raw.value).Failure? ==> Clamp(LimitInput(d)) == DefaultLimit)
      && (forall n :: raw == Some(Int(n)) && n != 0 ==> Clamp(LimitInput(d)) == Clamp(n))
      && (forall n :: raw == Some(Str(IntToString(n))) ==> Clamp(LimitInput(d)) == Clamp(n))
  {
    forall n | Get(d, "limit") == Some(Str(IntToString(n)))
      ensures Clamp(LimitInput(d)) == Clamp(n)
    {
      ToIntOfText(n);
    }
  }

  /**
   * Validation is idempotent: validating a plan that is already valid
   * succeeds and leaves every key as it was.
   */
  lemma ValidatedIsFixed(d: seq<(string, Value)>, e: seq<(string, Value)>, cols: seq<string>)
    requires Validated(Dict(d), cols)
    ensures CatalogMetrics(MetricInput(d)).Success?
    ensures NotesInput(d).Str?
    ensures Normalises(d, e, cols) ==> forall k :: Get(e, k) == Get(d, k)
  {
    GroupInputOfValidated(d, cols);
    MetricInputOfValidated(d);
    FilterInputOfValidated(d, cols);
    TimeInputOfValidated(d);
    LimitInputOfValidated(d);
    if Normalises(d, e, cols) {
      SameFields(e, d);
    }
  }
}
