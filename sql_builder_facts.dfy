/**
 * What the compiler guarantees about the statements it prints: how a string
 * value is quoted, the fixed shape of every statement, and how each plan
 * field (limit, metrics, group_by, sort) shows up in it.
 */
module SqlBuilderFacts {
  import opened Wrappers
  import opened Strings
  import opened Values
  import opened SqlBuilder

  // ---------------------------------------------------------------- quoting

  /**
   * How a SQL lexer reads a single-quoted literal at the start of `t`: a
   * doubled quote stands for one quote and a lone quote ends the literal.
   * The result is the literal's text and whatever follows it.
   */
  function ReadQuoted(t: string): Option<(string, string)> {
    if t == [] || t[0] != '\'' then None else ReadBody(t[1..])
  }

  function ReadBody(u: string): Option<(string, string)>
    decreases |u|
  {
    if u == [] then None
    else if u[0] == '\'' then
      if |u| >= 2 && u[1] == '\'' then
        match ReadBody(u[2..])
        case None => None
        case Some(p) => Some(("'" + p.0, p.1))
      else Some(([], u[1..]))
    else
      match ReadBody(u[1..])
      case None => None
      case Some(p) => Some(([u[0]] + p.0, p.1))
  }

  lemma {:induction false} ReadBodyOfEscape(s: string, rest: string)
    requires rest == [] || rest[0] != '\''
    ensures ReadBody(Escape(s) + "'" + rest) == Some((s, rest))
    decreases |s|
  {
    var u := Escape(s) + "'" + rest;
    if s == [] {
      assert u == "'" + rest;
      assert u[1..] == rest;
    } else {
      ReadBodyOfEscape(s[1..], rest);
      var tail := Escape(s[1..]) + "'" + rest;
      if s[0] == '\'' {
        assert u == "''" + tail;
        assert u[2..] == tail;
        assert "'" + s[1..] == s;
      } else {
        assert u == [s[0]] + tail;
        assert u[1..] == tail;
        assert [s[0]] + s[1..] == s;
      }
    }
  }

  /**
   * A string value is printed as a literal that a SQL lexer reads back as
   * exactly that string, ending exactly where the compiler's own text
   * resumes: a quote in the value cannot close the literal early.
   */
  lemma LiteralReadsBack(s: string, rest: string)
    requires rest == [] || rest[0] != '\''
    ensures ReadQuoted(SqlLiteral(Str(s)) + rest) == Some((s, rest))
  {
    var t := SqlLiteral(Str(s)) + rest;
    assert t == "'" + (Escape(s) + "'" + rest);
    assert t[1..] == Escape(s) + "'" + rest;
    ReadBodyOfEscape(s, rest);
  }

  /** Doubling the quotes of a text distributes over concatenation. */
  lemma {:induction false} EscapeAppend(a: string, b: string)
    ensures Escape(a + b) == Escape(a) + Escape(b)
  {
    if a != [] {
      EscapeAppend(a[1..], b);
      assert (a + b)[1..] == a[1..] + b;
      assert (a + b)[0] == a[0];
    } else {
      assert a + b == b;
    }
  }

  /** A text with no quote is left alone by quote doubling. */
  lemma {:induction false} EscapeQuoteless(s: string)
    requires forall i :: 0 <= i < |s| ==> s[i] != '\''
    ensures Escape(s) == s
  {
    if s != [] {
      EscapeQuoteless(s[1..]);
    }
  }

  // ---------------------------------------------------------------- repr

  /** The value of a hexadecimal digit as `HexDigit` writes it. */
  function HexValue(c: char): (n: nat)
    ensures n < 16
  {
    if '0' <= c <= '9' then c as int - '0' as int
    else if 'a' <= c <= 'f' then c as int - 'a' as int + 10
    else 0
  }

  /** How Python reads back the characters of a `repr` body: each escape sequence stands for one character. */
  function ReadReprBody(t: string): string
    decreases |t|
  {
    if t == [] then []
    else if t[0] == '\\' && |t| >= 2 then
      if t[1] == 't' then "\t" + ReadReprBody(t[2..])
      else if t[1] == 'n' then "\n" + ReadReprBody(t[2..])
      else if t[1] == 'r' then "\r" + ReadReprBody(t[2..])
      else if t[1] == 'x' && |t| >= 4 then [(HexValue(t[2]) * 16 + HexValue(t[3])) as char] + ReadReprBody(t[4..])
      else [t[1]] + ReadReprBody(t[2..])
    else [t[0]] + ReadReprBody(t[1..])
  }

  lemma ReadReprChar(c: char, q: char, rest: string)
    requires q == '\'' || q == '"'
    ensures ReadReprBody(ReprChar(c, q) + rest) == [c] + ReadReprBody(rest)
  {
    var t := ReprChar(c, q) + rest;
    if c == q || c == '\\' || c == '\t' || c == '\n' || c == '\r' {
      assert t[2..] == rest;
    } else if c as int < 0x20 || c as int == 0x7f {
      var n := c as int;
      assert HexValue(HexDigit(n / 16)) == n / 16;
      assert HexValue(HexDigit(n % 16)) == n % 16;
      assert t[4..] == rest;
    } else {
      assert t[1..] == rest;
    }
  }

  /** Reading a `repr` body back gives the string it shows, whichever quote it is written for. */
  lemma {:induction false} ReprBodyReadsBack(s: string, q: char)
    requires q == '\'' || q == '"'
    ensures ReadReprBody(ReprBody(s, q)) == s
    decreases |s|
  {
    if s != [] {
      ReprBodyReadsBack(s[1..], q);
      ReadReprChar(s[0], q, ReprBody(s[1..], q));
      assert [s[0]] + s[1..] == s;
    }
  }

  /**
   * `repr` of a string round-trips: inside the quote it chose, the text reads
   * back as the string itself.
   */
  lemma StrReprReadsBack(s: string)
    ensures var r := StrRepr(s);
      |r| >= 2 && r[0] == r[|r| - 1] == ReprQuote(s) && ReadReprBody(r[1..|r| - 1]) == s
  {
    var q := ReprQuote(s);
    var r := StrRepr(s);
    assert r[1..|r| - 1] == ReprBody(s, q);
    ReprBodyReadsBack(s, q);
  }

  /** Text with no quote `q`, backslash or control character is shown as it is. */
  lemma {:induction false} ReprBodyPlain(s: string, q: char)
    requires forall i :: 0 <= i < |s| ==> s[i] != q && s[i] != '\\' && 0x20 <= s[i] as int != 0x7f
    ensures ReprBody(s, q) == s
    decreases |s|
  {
    if s != [] {
      ReprBodyPlain(s[1..], q);
      assert [s[0]] + s[1..] == s;
    }
  }

  /**
   * A list holding text with an apostrophe: `str` shows the element in double
   * quotes, and the literal then doubles the apostrophe.
   */
  lemma ApostropheInList()
    ensures SqlLiteral(List([Str("it's")])) == "'" + "[\"it''s\"]" + "'"
  {
    ListReprOfApostrophe();
    assert Text(List([Str("it's")])) == "[" + "\"it's\"" + "]";
    EscapeOfApostrophe();
  }

  lemma ListReprOfApostrophe()
    ensures Repr(List([Str("it's")])) == "[" + "\"it's\"" + "]"
  {
    StrReprOfApostrophe();
    var e := "\"it's\"";
    var parts := seq(1, k requires 0 <= k < 1 => Repr([Str("it's")][k]));
    assert parts == [e];
  }

  lemma StrReprOfApostrophe()
    ensures StrRepr("it's") == "\"it's\""
  {
    var s := "it's";
    assert s[2] == '\'';
    assert ReprQuote(s) == '"';
    ReprBodyPlain(s, '"');
  }

  lemma EscapeOfApostrophe()
    ensures Escape("[" + "\"it's\"" + "]") == "[\"it''s\"]"
  {
    assert "[" + "\"it's\"" + "]" == "[\"it" + ("'" + "s\"]");
    EscapeAppend("[\"it", "'" + "s\"]");
    EscapeAppend("'", "s\"]");
    EscapeQuoteless("[\"it");
    EscapeQuoteless("s\"]");
    assert Escape("'") == "''";
  }

  // ---------------------------------------------------------------- shape

  lemma Frame(sel: string, c1: string, c2: string, c3: string, lim: string)
    ensures var sql := "SELECT " + sel + "\nFROM sales\n" + c1 + c2 + c3 + lim;
      StartsWith(sql, "SELECT ") && Contains(sql, "\nFROM sales\n") && EndsWith(sql, lim)
  {
    var sql := "SELECT " + sel + "\nFROM sales\n" + c1 + c2 + c3 + lim;
    var rest := sel + "\nFROM sales\n" + c1 + c2 + c3 + lim;
    assert sql == "SELECT " + rest;
    assert sql[..7] == "SELECT ";
    ContainsSelf("\nFROM sales\n");
    ContainsInside("SELECT " + sel, "\nFROM sales\n", c1 + c2 + c3 + lim, "\nFROM sales\n");
    assert sql == ("SELECT " + sel) + "\nFROM sales\n" + (c1 + c2 + c3 + lim);
    var head := "SELECT " + sel + "\nFROM sales\n" + c1 + c2 + c3;
    assert sql == head + lim;
    assert sql[|head|..] == lim;
  }

  /** The fixed frame of every statement. */
  lemma StatementShape(select: seq<string>, where: seq<string>, group: seq<string>, order: seq<string>, limit: int)
    ensures var sql := Statement(select, where, group, order, limit);
      StartsWith(sql, "SELECT ")
      && Contains(sql, "\nFROM sales\n")
      && EndsWith(sql, "LIMIT " + IntToString(limit))
  {
    Frame(Join(select, ", "), Clause("WHERE ", where, " AND "), Clause("GROUP BY ", group, ", "),
      Clause("ORDER BY ", order, ", "), "LIMIT " + IntToString(limit));
  }

  /** Every compiled statement is `SELECT ... FROM sales ... LIMIT n` with `n` between 1 and 200. */
  lemma CompiledShape(plan: Value, cols: seq<string>)
    requires Compile(plan, cols).Success?
    ensures var sql := Compile(plan, cols).value;
      StartsWith(sql, "SELECT ")
      && Contains(sql, "\nFROM sales\n")
      && exists n :: 1 <= n <= MaxLimit && EndsWith(sql, "LIMIT " + IntToString(n))
  {
    var q := PlanQuery(plan, cols).value;
    assert Compile(plan, cols).value == Render(q);
    StatementShape(SelectList(q), PredicateTexts(q.preds), QuoteAll(q.groupCols), OrderTexts(q.order), q.limit);
    PlanQuerySound(plan, cols);
  }

  // ---------------------------------------------------------------- limit

  /** The plan's raw limit field, read the way `build_sql` reads it. */
  function RawLimit(plan: Value): Option<Value>
    requires plan.Dict?
  {
    Get(plan.entries, "limit")
  }

  /**
   * LIMIT is the plan's limit clamped to 1..200; a missing or falsy limit
   * means 10, and a numeric string counts as its number.
   */
  lemma LimitRules(plan: Value, cols: seq<string>)
    requires plan.Dict? && PlanQuery(plan, cols).Success?
    ensures var q := PlanQuery(plan, cols).value;
      (RawLimit(plan).None? || !Truthy(RawLimit(plan).value) ==> q.limit == DefaultLimit)
      && (forall n :: RawLimit(plan) == Some(Int(n)) && n != 0 ==> q.limit == Clamp(n))
      && (forall n :: RawLimit(plan) == Some(Str(IntToString(n))) ==> q.limit == Clamp(n))
      && (RawLimit(plan) == Some(Bool(true)) ==> q.limit == 1)
  {
    PlanQueryParts(plan, cols);
    forall n | RawLimit(plan) == Some(Str(IntToString(n)))
      ensures PlanQuery(plan, cols).value.limit == Clamp(n)
    {
      ToIntOfText(n);
    }
  }

  /** A limit that `int()` rejects makes the whole compilation raise. */
  lemma LimitErrors(plan: Value, cols: seq<string>)
    requires plan.Dict? && RawLimit(plan).Some? && Truthy(RawLimit(plan).value)
    ensures RawLimit(plan).value.List? || RawLimit(plan).value.Dict? ==> Compile(plan, cols) == Failure(TypeError)
    ensures RawLimit(plan).value.Str? && ParseInt(RawLimit(plan).value.s).None? ==>
      Compile(plan, cols).Failure? && Compile(plan, cols).error.ValueError?
  {
  }

  // ---------------------------------------------------------------- metrics and projection

  /** With no usable metrics field the query aggregates the shipped amount. */
  lemma MetricsDefault(plan: Value, cols: seq<string>)
    requires plan.Dict? && PlanQuery(plan, cols).Success?
    requires Get(plan.entries, "metrics").None? || !Truthy(Get(plan.entries, "metrics").value)
    ensures PlanQuery(plan, cols).value.metrics == [DefaultMetric]
  {
    PlanQueryParts(plan, cols);
    CatalogMetricsOfKnown([DefaultMetric]);
    assert seq(1, k requires 0 <= k < 1 => Str([DefaultMetric][k])) == [Str(DefaultMetric)];
  }

  /**
   * The SELECT list is the group columns, quoted and in plan order, then
   * one `expr AS name` per catalogued metric; when both are empty it is
   * the shipped amount alone.
   */
  lemma SelectListLayout(q: Query)
    requires InCatalog(q)
    ensures q.groupCols == [] && q.metrics == [] ==>
      SelectList(q) == [SafeMetrics[DefaultMetric] + " AS " + DefaultMetric]
    ensures q.groupCols != [] || q.metrics != [] ==>
      |SelectList(q)| == |q.groupCols| + |q.metrics|
      && (forall k :: 0 <= k < |q.groupCols| ==> SelectList(q)[k] == Quote(q.groupCols[k]))
      && (forall k :: 0 <= k < |q.metrics| ==>
            SelectList(q)[|q.groupCols| + k] == SafeMetrics[q.metrics[k]] + " AS " + q.metrics[k])
  {
  }

  /**
   * The GROUP BY clause is present exactly when there are group columns, and
   * lists exactly the quoted columns that open the SELECT list.
   */
  lemma GroupByMirrorsSelect(q: Query)
    requires InCatalog(q)
    ensures q.groupCols == [] ==> Clause("GROUP BY ", QuoteAll(q.groupCols), ", ") == ""
    ensures q.groupCols != [] ==>
      Clause("GROUP BY ", QuoteAll(q.groupCols), ", ") == "GROUP BY " + Join(SelectList(q)[..|q.groupCols|], ", ") + "\n"
  {
    if q.groupCols != [] {
      assert SelectList(q)[..|q.groupCols|] == QuoteAll(q.groupCols);
    }
  }

  /** The group-by filter keeps exactly the known names, in order: it distributes over concatenation. */
  lemma {:induction false} GroupColumnsAppend(a: seq<Value>, b: seq<Value>, cols: seq<string>)
    ensures GroupColumns(a + b, cols) == GroupColumns(a, cols) + GroupColumns(b, cols)
    decreases |b|
  {
    if b == [] {
      assert a + b == a;
    } else {
      var b' := b[..|b| - 1];
      GroupColumnsAppend(a, b', cols);
      assert (a + b)[..|a + b| - 1] == a + b';
      assert (a + b)[|a + b| - 1] == b[|b| - 1];
    }
  }

  /** A list of known column names passes the group-by filter unchanged. */
  lemma {:induction false} GroupColumnsOfKnown(names: seq<string>, cols: seq<string>)
    requires forall c :: c in names ==> c in cols
    ensures GroupColumns(seq(|names|, k requires 0 <= k < |names| => Str(names[k])), cols) == names
    decreases |names|
  {
    if names != [] {
      var init := names[..|names| - 1];
      GroupColumnsOfKnown(init, cols);
      var vs := seq(|names|, k requires 0 <= k < |names| => Str(names[k]));
      assert vs[..|vs| - 1] == seq(|init|, k requires 0 <= k < |init| => Str(init[k]));
      assert names[|names| - 1] in names;
      assert IsIn(vs[|vs| - 1], cols);
    }
  }

  /** A list of catalogued metric names passes the metric filter unchanged. */
  lemma {:induction false} CatalogMetricsOfKnown(names: seq<string>)
    requires forall m :: m in names ==> m in SafeMetrics
    ensures CatalogMetrics(seq(|names|, k requires 0 <= k < |names| => Str(names[k]))) == Success(names)
    decreases |names|
  {
    if names != [] {
      var init := names[..|names| - 1];
      CatalogMetricsOfKnown(init);
      var vs := seq(|names|, k requires 0 <= k < |names| => Str(names[k]));
      assert vs[..|vs| - 1] == seq(|init|, k requires 0 <= k < |init| => Str(init[k]));
      assert names[|names| - 1] in names;
      assert vs[|vs| - 1] == Str(names[|names| - 1]);
      assert names == init + [names[|names| - 1]];
    }
  }

  // ---------------------------------------------------------------- where

  /** The time window comes first in WHERE: the lower bound, then the upper bound. */
  lemma DateWindow(time: seq<(string, Value)>)
    ensures var ps := DatePredicates(time);
      var from := Get(time, "from");
      var to := Get(time, "to");
      (from.Some? && Truthy(from.value) <==> exists p :: p in ps && p.AtLeastDate?)
      && (to.Some? && Truthy(to.value) <==> exists p :: p in ps && p.AtMostDate?)
      && (ps != [] && ps[0].AtMostDate? ==> |ps| == 1)
  {
    var ps := DatePredicates(time);
    var from := Get(time, "from");
    if from.Some? && Truthy(from.value) {
      assert ps[0] in ps;
    }
    var to := Get(time, "to");
    if to.Some? && Truthy(to.value) {
      assert ps[|ps| - 1] in ps;
    }
  }

  /** The filter loop turns each known entry into one predicate and keeps entry order. */
  lemma {:induction false} FilterPredicatesAppend(a: seq<(string, Value)>, b: seq<(string, Value)>, cols: seq<string>)
    ensures FilterPredicates(a + b, cols) == FilterPredicates(a, cols) + FilterPredicates(b, cols)
    decreases |b|
  {
    if b == [] {
      assert a + b == a;
    } else {
      var b' := b[..|b| - 1];
      FilterPredicatesAppend(a, b', cols);
      assert (a + b)[..|a + b| - 1] == a + b';
      assert (a + b)[|a + b| - 1] == b[|b| - 1];
    }
  }

  // ---------------------------------------------------------------- order

  /**
   * A sort entry's direction is its order text lower-cased then
   * upper-cased, "DESC" when absent or empty; a schema column wins over a
   * metric of the same name.
   */
  lemma SortDirection(s: Value, cols: seq<string>)
    requires SortTerm(s, cols).Success? && SortTerm(s, cols).value.Some?
    ensures var t := SortTerm(s, cols).value.value;
      var order := Get(s.entries, "order");
      (order.None? || !Truthy(order.value) ==> t.dir == "DESC")
      && (order.Some? && Truthy(order.value) ==> order.value.Str? && t.dir == Upper(Lower(order.value.s)))
      && (Get(s.entries, "by").Some? && IsIn(Get(s.entries, "by").value, cols) ==> t.key == ColumnKey(Get(s.entries, "by").value.s))
  {
    DescUpper();
  }

  lemma DescUpper()
    ensures Upper(Lower("desc")) == "DESC"
  {
    assert Lower("desc") == "desc";
    assert Upper("desc") == "DESC";
  }

  /** An entry that is not a dict, or whose order is not text, makes compilation raise `AttributeError`. */
  lemma SortEntryErrors(s: Value, cols: seq<string>)
    ensures !s.Dict? ==> SortTerm(s, cols) == Failure(AttributeError)
    ensures (s.Dict? && Get(s.entries, "order").Some? && Truthy(Get(s.entries, "order").value)
      && !Get(s.entries, "order").value.Str?) ==> SortTerm(s, cols) == Failure(AttributeError)
    ensures (s.Dict? && Get(s.entries, "by").Some? && (Get(s.entries, "by").value.List? || Get(s.entries, "by").value.Dict?)
      && (Get(s.entries, "order").None? || !Truthy(Get(s.entries, "order").value) || Get(s.entries, "order").value.Str?))
      ==> SortTerm(s, cols) == Failure(TypeError)
  {
  }

  // ---------------------------------------------------------------- an example

  const ExampleColumns: seq<string> := ["Category", "Amount", "Status"]
  const ExampleSort: Value := Dict([("by", Str("shipped_amount")), ("order", Str("desc"))])
  const ExamplePlan: seq<(string, Value)> := [
    ("metrics", List([Str("shipped_amount")])),
    ("group_by", List([Str("Category")])),
    ("sort", List([ExampleSort])),
    ("limit", Int(5))]

  lemma ExampleFields()
    ensures LimitOf(ExamplePlan) == Success(5)
    ensures GroupItemsOf(ExamplePlan) == Success([Str("Category")])
    ensures MetricItemsOf(ExamplePlan) == Success([Str("shipped_amount")])
    ensures TimeOf(ExamplePlan) == Dict([]) && FiltersOf(ExamplePlan) == Dict([])
    ensures SortItemsOf(ExamplePlan) == Success([ExampleSort])
  {
    var d := ExamplePlan;
    GetAt(d, 0);
    GetAt(d, 1);
    GetAt(d, 2);
    GetAt(d, 3);
    GetMissing(d, "time");
    GetMissing(d, "filters");
  }

  lemma ExampleOrder()
    ensures SortTerms([ExampleSort], ExampleColumns) == Success([OrderTerm(MetricKey("shipped_amount"), "DESC")])
  {
    DescUpper();
    GetAt(ExampleSort.entries, 0);
    GetAt(ExampleSort.entries, 1);
    assert !IsIn(Str("shipped_amount"), ExampleColumns);
    var t := OrderTerm(MetricKey("shipped_amount"), "DESC");
    assert Get(ExampleSort.entries, "by") == Some(Str("shipped_amount"));
    assert Get(ExampleSort.entries, "order") == Some(Str("desc"));
    assert SortTerm(ExampleSort, ExampleColumns) == Success(Some(t));
    assert [ExampleSort][..0] == [];
    assert SortTerms([], ExampleColumns) == Success([]);
    assert [] + [t] == [t];
  }

  lemma ExampleNames()
    ensures CatalogMetrics([Str("shipped_amount")]) == Success(["shipped_amount"])
    ensures GroupColumns([Str("Category")], ExampleColumns) == ["Category"]
  {
    CatalogMetricsOfKnown(["shipped_amount"]);
    assert seq(1, k requires 0 <= k < 1 => Str(["shipped_amount"][k])) == [Str("shipped_amount")];
    GroupColumnsOfKnown(["Category"], ExampleColumns);
    assert seq(1, k requires 0 <= k < 1 => Str(["Category"][k])) == [Str("Category")];
  }

  /**
   * "Top categories by shipped amount": group by Category, order by the
   * metric descending, five rows, no WHERE clause.
   */
  lemma TopCategoriesExample()
    ensures PlanQuery(Dict(ExamplePlan), ExampleColumns)
      == Success(Query(["Category"], ["shipped_amount"], [], [OrderTerm(MetricKey("shipped_amount"), "DESC")], 5))
  {
    var q := Query(["Category"], ["shipped_amount"], [], [OrderTerm(MetricKey("shipped_amount"), "DESC")], 5);
    ExampleFields();
    ExampleOrder();
    ExampleNames();
    assert DatePredicates([]) + FilterPredicates([], ExampleColumns) == [];
    PlanQueryIs(Dict(ExamplePlan), ExampleColumns, 5, [Str("Category")], [Str("shipped_amount")], [ExampleSort], q);
  }
}
