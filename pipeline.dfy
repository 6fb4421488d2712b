/**
 * How the compiler and the statement gate fit together: every compiled
 * statement clears the `select` prefix test, so the gate's verdict on it is
 * decided by the banned words alone. A banned word that the plan smuggles
 * into a name, a literal or a sort direction always trips it, and nothing
 * else does: the template, the catalogue and printed numbers hold none.
 */
module Pipeline {
  import opened Wrappers
  import opened Strings
  import opened Values
  import opened SqlBuilder
  import opened SqlBuilderFacts
  import opened Validators
  import opened ValidatorFacts
  import opened CleanText

  /** A text that opens with `SELECT ` and ends in a digit has no surrounding whitespace. */
  lemma TrimmedOfShape(sql: string, lim: string)
    requires StartsWith(sql, "SELECT ") && EndsWith(sql, lim)
    requires lim != [] && IsDigit(lim[|lim| - 1])
    ensures Trimmed(sql)
  {
    assert sql[0] == sql[..7][0] == 'S';
    assert sql[|sql| - 1] == sql[|sql| - |lim|..][|lim| - 1] == lim[|lim| - 1];
    DigitIsNotSpace(sql[|sql| - 1]);
  }

  /** Lower-casing keeps a `SELECT ` opening, in lower case. */
  lemma LowerOpensWithSelect(sql: string)
    requires StartsWith(sql, "SELECT ")
    ensures StartsWith(Lower(sql), "select")
  {
    assert sql[..6] == sql[..7][..6] == "SELECT";
    assert Lower(sql)[..6] == Lower(sql[..6]);
    assert Lower("SELECT") == "select";
  }

  /** The gate only lower-cases a trimmed text that opens with `SELECT `, and sees `select` in front. */
  lemma GateSeesSelect(sql: string)
    requires Trimmed(sql) && StartsWith(sql, "SELECT ")
    ensures Normalized(Some(sql)) == Lower(sql)
    ensures StartsWith(Normalized(Some(sql)), "select")
  {
    assert Normalized(Some(sql)) == Lower(sql) by {
      StripKeepsTrimmed(sql);
    }
    LowerOpensWithSelect(sql);
  }

  /** Once the prefix test is passed, the banned words alone decide. */
  lemma GateVerdict(sql: string)
    requires StartsWith(Normalized(Some(sql)), "select")
    ensures ValidateSqlIsSelect(Some(sql)) == (if HasBannedWord(Normalized(Some(sql))) then Fail(ValueError(UnsafeMessage)) else Pass)
  {
  }

  /**
   * The gate never refuses a statement for its prefix: it passes exactly
   * when the lower-cased statement has no banned word, and otherwise
   * reports it as unsafe.
   */
  lemma GateOnStatement(select: seq<string>, where: seq<string>, group: seq<string>, order: seq<string>, limit: int)
    ensures var sql := Statement(select, where, group, order, limit);
      Normalized(Some(sql)) == Lower(sql)
      && ValidateSqlIsSelect(Some(sql)) == (if HasBannedWord(Lower(sql)) then Fail(ValueError(UnsafeMessage)) else Pass)
  {
    var sql := Statement(select, where, group, order, limit);
    var digits := IntToString(limit);
    var lim := "LIMIT " + digits;
    StatementShape(select, where, group, order, limit);
    assert lim[|lim| - 1] == digits[|digits| - 1];
    TrimmedOfShape(sql, lim);
    GateSeesSelect(sql);
    GateVerdict(sql);
  }

  /**
   * What the gate says about anything `build_sql` produced: never "not a
   * SELECT", and a pass exactly when the text the plan put into the
   * statement carries no banned word.
   */
  lemma CompiledGate(plan: Value, cols: seq<string>)
    requires Compile(plan, cols).Success?
    ensures var sql := Compile(plan, cols).value;
      ValidateSqlIsSelect(Some(sql)) != Fail(ValueError(OnlySelectMessage))
      && (ValidateSqlIsSelect(Some(sql)) == Pass <==> !HasBannedWord(Lower(sql)))
      && (ValidateSqlIsSelect(Some(sql)) == Pass <==> PlanTextClean(PlanQuery(plan, cols).value))
  {
    var q := PlanQuery(plan, cols).value;
    GateOnStatement(SelectList(q), PredicateTexts(q.preds), QuoteAll(q.groupCols), OrderTexts(q.order), q.limit);
    PlanQuerySound(plan, cols);
    RenderedGate(q, cols);
  }

  /** A word found in one joined part is found in any text that has the join inside it. */
  lemma ContainsViaJoin(pre: string, parts: seq<string>, sep: string, post: string, k: int, w: string)
    requires 0 <= k < |parts| && Contains(Lower(parts[k]), w)
    ensures Contains(Lower(pre + Join(parts, sep) + post), w)
  {
    JoinHasPart(parts, sep, k);
    var a, b :| Join(parts, sep) == a + parts[k] + b;
    assert pre + Join(parts, sep) + post == (pre + a) + parts[k] + (b + post);
    LowerAppend(pre + a, parts[k]);
    LowerAppend((pre + a) + parts[k], b + post);
    ContainsInside(Lower(pre + a), Lower(parts[k]), Lower(b + post), w);
  }

  /** The statement text, cut around each of its four lists. */
  lemma StatementCuts(j: string, wc: string, gc: string, oc: string, lim: string, jw: string, jg: string, jo: string)
    ensures "SELECT " + j + "\nFROM sales\n" + wc + gc + oc + lim == "SELECT " + j + ("\nFROM sales\n" + wc + gc + oc + lim)
    ensures wc == "WHERE " + jw + "\n" ==>
      "SELECT " + j + "\nFROM sales\n" + wc + gc + oc + lim == ("SELECT " + j + "\nFROM sales\n" + "WHERE ") + jw + ("\n" + gc + oc + lim)
    ensures gc == "GROUP BY " + jg + "\n" ==>
      "SELECT " + j + "\nFROM sales\n" + wc + gc + oc + lim == ("SELECT " + j + "\nFROM sales\n" + wc + "GROUP BY ") + jg + ("\n" + oc + lim)
    ensures oc == "ORDER BY " + jo + "\n" ==>
      "SELECT " + j + "\nFROM sales\n" + wc + gc + oc + lim == ("SELECT " + j + "\nFROM sales\n" + wc + gc + "ORDER BY ") + jo + ("\n" + lim)
  {
  }

  /**
   * A banned word in any select item, predicate, group column or sort term
   * of a statement, in any letter case, makes the gate refuse it as unsafe.
   */
  lemma BannedPartRejected(select: seq<string>, where: seq<string>, group: seq<string>, order: seq<string>,
                           limit: int, w: string)
    requires w in Banned
    requires (exists k :: 0 <= k < |select| && Contains(Lower(select[k]), w))
          || (exists k :: 0 <= k < |where| && Contains(Lower(where[k]), w))
          || (exists k :: 0 <= k < |group| && Contains(Lower(group[k]), w))
          || (exists k :: 0 <= k < |order| && Contains(Lower(order[k]), w))
    ensures ValidateSqlIsSelect(Some(Statement(select, where, group, order, limit))) == Fail(ValueError(UnsafeMessage))
  {
    var sql := Statement(select, where, group, order, limit);
    var lim := "LIMIT " + IntToString(limit);
    var wc := Clause("WHERE ", where, " AND ");
    var gc := Clause("GROUP BY ", group, ", ");
    var oc := Clause("ORDER BY ", order, ", ");
    var from := "SELECT " + Join(select, ", ") + "\nFROM sales\n";
    StatementCuts(Join(select, ", "), wc, gc, oc, lim, Join(where, " AND "), Join(group, ", "), Join(order, ", "));
    if k :| 0 <= k < |select| && Contains(Lower(select[k]), w) {
      ContainsViaJoin("SELECT ", select, ", ", "\nFROM sales\n" + wc + gc + oc + lim, k, w);
    } else if k :| 0 <= k < |where| && Contains(Lower(where[k]), w) {
      ContainsViaJoin(from + "WHERE ", where, " AND ", "\n" + gc + oc + lim, k, w);
    } else if k :| 0 <= k < |group| && Contains(Lower(group[k]), w) {
      ContainsViaJoin(from + wc + "GROUP BY ", group, ", ", "\n" + oc + lim, k, w);
    } else {
      var k :| 0 <= k < |order| && Contains(Lower(order[k]), w);
      ContainsViaJoin(from + wc + gc + "ORDER BY ", order, ", ", "\n" + lim, k, w);
    }
    assert HasBannedWord(Lower(sql));
    GateOnStatement(select, where, group, order, limit);
  }

  /** A word found, in any case, in a piece of a text is found in the lower-cased text. */
  lemma LowerContainsInside(a: string, m: string, b: string, w: string)
    requires Contains(Lower(m), w)
    ensures Contains(Lower(a + m + b), w)
  {
    LowerAppend(a, m);
    LowerAppend(a + m, b);
    ContainsInside(Lower(a), Lower(m), Lower(b), w);
  }

  /**
   * A group column carrying a banned word, in any case, gets the compiled
   * query refused.
   */
  lemma BannedGroupColumnRejected(q: Query, k: int, w: string)
    requires InCatalog(q) && 0 <= k < |q.groupCols|
    requires w in Banned && Contains(Lower(q.groupCols[k]), w)
    ensures ValidateSqlIsSelect(Some(Render(q))) == Fail(ValueError(UnsafeMessage))
  {
    var group := QuoteAll(q.groupCols);
    LowerContainsInside("\"", q.groupCols[k], "\"", w);
    assert group[k] == Quote(q.groupCols[k]);
    assert 0 <= k < |group| && Contains(Lower(group[k]), w);
    BannedPartRejected(SelectList(q), PredicateTexts(q.preds), group, OrderTexts(q.order), q.limit, w);
  }

  /** A filter whose column carries a banned word gets the compiled query refused. */
  lemma BannedFilterColumnRejected(q: Query, k: int, w: string)
    requires InCatalog(q) && 0 <= k < |q.preds|
    requires q.preds[k].IsOneOf? || q.preds[k].EqualTo?
    requires w in Banned && Contains(Lower(q.preds[k].col), w)
    ensures ValidateSqlIsSelect(Some(Render(q))) == Fail(ValueError(UnsafeMessage))
  {
    var p := q.preds[k];
    var where := PredicateTexts(q.preds);
    assert where[k] == PredicateText(p);
    if p.IsOneOf? {
      var rest := " IN (" + Join(Literals(p.vals), ",") + ")";
      assert PredicateText(p) == Quote(p.col) + rest;
      QuotedHead(p.col, rest, w);
    } else {
      var rest := " = " + SqlLiteral(p.val);
      assert PredicateText(p) == Quote(p.col) + rest;
      QuotedHead(p.col, rest, w);
    }
    assert 0 <= k < |where| && Contains(Lower(where[k]), w);
    BannedPartRejected(SelectList(q), where, QuoteAll(q.groupCols), OrderTexts(q.order), q.limit, w);
  }

  /** A word inside a name is inside any text that opens with the quoted name. */
  lemma QuotedHead(name: string, rest: string, w: string)
    requires Contains(Lower(name), w)
    ensures Contains(Lower(Quote(name) + rest), w)
  {
    assert Quote(name) + rest == "\"" + name + ("\"" + rest);
    LowerContainsInside("\"", name, "\"" + rest, w);
  }

  /** A sort direction carrying a banned word gets the compiled query refused. */
  lemma BannedDirectionRejected(q: Query, k: int, w: string)
    requires InCatalog(q) && 0 <= k < |q.order|
    requires w in Banned && Contains(Lower(q.order[k].dir), w)
    ensures ValidateSqlIsSelect(Some(Render(q))) == Fail(ValueError(UnsafeMessage))
  {
    var t := q.order[k];
    var order := OrderTexts(q.order);
    var name := if t.key.ColumnKey? then Quote(t.key.name) else t.key.name;
    assert order[k] == name + " " + t.dir + [];
    LowerContainsInside(name + " ", t.dir, [], w);
    assert 0 <= k < |order| && Contains(Lower(order[k]), w);
    BannedPartRejected(SelectList(q), PredicateTexts(q.preds), QuoteAll(q.groupCols), order, q.limit, w);
  }

  /** None of the banned words has a quote in it. */
  lemma BannedHasNoQuote(w: string)
    requires w in Banned
    ensures forall i :: 0 <= i < |w| ==> w[i] != '\''
  {
  }

  /** A banned word inside a text, in any case, is still inside it once its quotes are doubled. */
  lemma EscapeKeepsWord(s: string, w: string)
    requires w in Banned && Contains(Lower(s), w)
    ensures Contains(Lower(Escape(s)), w)
  {
    var i :| 0 <= i <= |Lower(s)| && OccursAt(Lower(s), w, i);
    var pre, mid, post := s[..i], s[i..i + |w|], s[i + |w|..];
    assert s == pre + mid + post;
    assert Lower(mid) == Lower(s)[i..i + |w|] == w;
    BannedHasNoQuote(w);
    forall j | 0 <= j < |mid| ensures mid[j] != '\'' {
      assert LowerChar(mid[j]) == w[j];
    }
    EscapeAppend(pre, mid);
    EscapeAppend(pre + mid, post);
    EscapeQuoteless(mid);
    ContainsSelf(w);
    LowerContainsInside(Escape(pre), mid, Escape(post), w);
  }

  /**
   * An equality filter whose text value carries a banned word, in any case,
   * gets the compiled query refused, quote doubling notwithstanding.
   */
  lemma BannedFilterTextRejected(q: Query, k: int, w: string)
    requires InCatalog(q) && 0 <= k < |q.preds|
    requires q.preds[k].EqualTo? && q.preds[k].val.Str?
    requires w in Banned && Contains(Lower(q.preds[k].val.s), w)
    ensures ValidateSqlIsSelect(Some(Render(q))) == Fail(ValueError(UnsafeMessage))
  {
    var p := q.preds[k];
    var where := PredicateTexts(q.preds);
    EscapeKeepsWord(p.val.s, w);
    assert where[k] == PredicateText(p) == Quote(p.col) + " = " + ("'" + Escape(p.val.s) + "'");
    assert where[k] == (Quote(p.col) + " = " + "'") + Escape(p.val.s) + "'";
    LowerContainsInside(Quote(p.col) + " = " + "'", Escape(p.val.s), "'", w);
    assert 0 <= k < |where| && Contains(Lower(where[k]), w);
    BannedPartRejected(SelectList(q), where, QuoteAll(q.groupCols), OrderTexts(q.order), q.limit, w);
  }

  // ---------------------------------------------------------------- from the validator to the compiler

  /**
   * A validated plan always compiles, unless its `sort` list (which
   * validation leaves alone) is malformed; the query then groups by exactly
   * the validated columns, computes exactly the validated metrics and keeps
   * the validated limit.
   */
  lemma ValidatedCompiles(d: seq<(string, Value)>, cols: seq<string>)
    requires Validated(Dict(d), cols)
    requires SortItemsOf(d).Success? && SortTerms(SortItemsOf(d).value, cols).Success?
    ensures PlanQuery(Dict(d), cols).Success?
    ensures var q := PlanQuery(Dict(d), cols).value;
      Strs(q.groupCols) == Get(d, "group_by").value.items
      && Strs(q.metrics) == Get(d, "metrics").value.items
      && q.limit == Get(d, "limit").value.i
  {
    var g := Get(d, "group_by").value.items;
    var ms := Get(d, "metrics").value.items;
    assert LimitOf(d) == Success(Get(d, "limit").value.i);
    assert GroupItemsOf(d) == Success(g);
    assert MetricItemsOf(d) == Success(ms);
    CatalogMetricsOfValidated(ms);
    GroupColumnsOfValidated(g, cols);
    assert TimeOf(d).Dict? && FiltersOf(d).Dict?;
  }

  // ---------------------------------------------------------------- what passes

  /** The text `_sql_literal` takes from a value, `str(v)`, is free of banned words. */
  predicate LiteralClean(v: Value) {
    v.Null? || v.Int? || v.Bool? || Clean(Text(v))
  }

  /** The plan-supplied text of a predicate, its column and its values, is free of banned words. */
  predicate PredicateClean(p: Predicate) {
    match p
    case AtLeastDate(v) => LiteralClean(v)
    case AtMostDate(v) => LiteralClean(v)
    case IsOneOf(col, vals) => Clean(col) && forall k :: 0 <= k < |vals| ==> LiteralClean(vals[k])
    case EqualTo(col, v) => Clean(col) && LiteralClean(v)
  }

  /** The plan-supplied text of a sort term, its direction and its column, is free of banned words. */
  predicate OrderClean(t: OrderTerm) {
    Clean(t.dir) && (t.key.ColumnKey? ==> Clean(t.key.name))
  }

  /**
   * Every text a query takes from the plan is free of banned words: group
   * columns, filter columns and values, date bounds, sort columns and
   * sort directions.
   */
  predicate PlanTextClean(q: Query) {
    (forall k :: 0 <= k < |q.groupCols| ==> Clean(q.groupCols[k]))
    && (forall k :: 0 <= k < |q.preds| ==> PredicateClean(q.preds[k]))
    && (forall k :: 0 <= k < |q.order| ==> OrderClean(q.order[k]))
  }

  /** The implication form of `EscapeKeepsWord`. */
  lemma EscapeKeepsWords(s: string, w: string)
    requires w in Banned
    ensures Contains(Lower(s), w) ==> Contains(Lower(Escape(s)), w)
  {
    if Contains(Lower(s), w) {
      EscapeKeepsWord(s, w);
    }
  }

  /** A printed literal is clean exactly when the text it takes from the value is. */
  lemma LiteralText(v: Value)
    ensures Clean(SqlLiteral(v)) <==> LiteralClean(v)
  {
    if v.Null? || v.Bool? {
      KeywordsD();
    } else if v.Int? {
      IntClean(v.i);
    } else {
      var t := Text(v);
      var e := Escape(t);
      assert SqlLiteral(v) == "'" + e + "'";
      CleanShort("'");
      if Clean(t) {
        EscapeClean(t);
        CleanAppend("'", e);
        CleanAppend("'" + e, "'");
      }
      CleanPartOf("'", e, "'");
      forall w | w in Banned ensures Clean(e) ==> !Contains(Lower(t), w) {
        EscapeKeepsWords(t, w);
      }
    }
  }

  /** Parts joined by a separator that starts and ends with a non-letter are clean exactly when each part is. */
  lemma JoinText(parts: seq<string>, sep: string)
    requires Clean(sep) && sep != [] && !IsLetter(sep[0]) && !IsLetter(sep[|sep| - 1])
    ensures Clean(Join(parts, sep)) <==> forall k :: 0 <= k < |parts| ==> Clean(parts[k])
  {
    if forall k :: 0 <= k < |parts| ==> Clean(parts[k]) {
      CleanJoin(parts, sep);
    }
    forall k | 0 <= k < |parts| ensures Clean(Join(parts, sep)) ==> Clean(parts[k]) {
      JoinHasPart(parts, sep, k);
      var a, b :| Join(parts, sep) == a + parts[k] + b;
      CleanPartOf(a, parts[k], b);
    }
  }

  /** A date bound is clean exactly when its literal's text is. */
  lemma DateBoundText(op: string, v: Value)
    requires op == " >= DATE " || op == " <= DATE "
    ensures Clean(DateTerm + op + SqlLiteral(v)) <==> LiteralClean(v)
  {
    DateTermClean();
    KeywordsC();
    LiteralText(v);
    CleanJoined(DateTerm, op, SqlLiteral(v));
  }

  /** An `IN` list is clean exactly when its column and every value's text are. */
  lemma InListText(col: string, vals: seq<Value>)
    ensures Clean(Quote(col) + " IN (" + Join(Literals(vals), ",") + ")")
      <==> Clean(col) && forall k :: 0 <= k < |vals| ==> LiteralClean(vals[k])
  {
    var j := Join(Literals(vals), ",");
    ValuesText(vals);
    KeywordsC();
    QuoteClean(col);
    ClosedText(j);
    assert Quote(col) + " IN (" + j + ")" == Quote(col) + " IN (" + (j + ")");
    CleanJoined(Quote(col), " IN (", j + ")");
  }

  /** A closing bracket adds no banned word. */
  lemma ClosedText(j: string)
    ensures Clean(j + ")") <==> Clean(j)
  {
    CleanShort(")");
    CleanJoined(j, ")", []);
    assert j + ")" + [] == j + ")";
  }

  /** The values of an `IN` list, joined by commas, are clean exactly when each value's text is. */
  lemma ValuesText(vals: seq<Value>)
    ensures Clean(Join(Literals(vals), ",")) <==> forall k :: 0 <= k < |vals| ==> LiteralClean(vals[k])
  {
    var lits := Literals(vals);
    CleanShort(",");
    JoinText(lits, ",");
    forall k | 0 <= k < |vals| ensures Clean(lits[k]) <==> LiteralClean(vals[k]) {
      LiteralText(vals[k]);
    }
  }

  /** An equality test is clean exactly when its column and its value's text are. */
  lemma EqualityText(col: string, v: Value)
    ensures Clean(Quote(col) + " = " + SqlLiteral(v)) <==> Clean(col) && LiteralClean(v)
  {
    LiteralText(v);
    QuoteClean(col);
    CleanShort(" = ");
    CleanJoined(Quote(col), " = ", SqlLiteral(v));
  }

  lemma PredicateTextClean(p: Predicate)
    ensures Clean(PredicateText(p)) <==> PredicateClean(p)
  {
    match p
    case AtLeastDate(v) => DateBoundText(" >= DATE ", v);
    case AtMostDate(v) => DateBoundText(" <= DATE ", v);
    case IsOneOf(col, vals) => InListText(col, vals);
    case EqualTo(col, v) => EqualityText(col, v);
  }

  /** A sort term is clean exactly when its direction and its column are; a metric name always is. */
  lemma OrderTermText(t: OrderTerm)
    requires t.key.MetricKey? ==> t.key.name in SafeMetrics
    ensures Clean(OrderText(t)) <==> OrderClean(t)
  {
    CleanShort(" ");
    match t.key
    case ColumnKey(c) =>
      QuoteClean(c);
      CleanJoined(Quote(c), " ", t.dir);
    case MetricKey(m) =>
      NamesClean();
      CleanJoined(m, " ", t.dir);
  }

  /** A catalogued metric's select item never holds a banned word. */
  lemma MetricItemClean(m: string)
    requires m in SafeMetrics
    ensures Clean(MetricItem(m))
  {
    ExpressionsClean();
    NamesClean();
    KeywordsB();
    CleanAround(SafeMetrics[m], " AS ", m);
  }

  /** An optional clause is clean exactly when its parts are, and it ends with a line break when present. */
  lemma ClauseText(kw: string, parts: seq<string>, sep: string)
    requires kw == "WHERE " || kw == "GROUP BY " || kw == "ORDER BY "
    requires sep == " AND " || sep == ", "
    ensures Clean(Clause(kw, parts, sep)) <==> forall k :: 0 <= k < |parts| ==> Clean(parts[k])
    ensures var c := Clause(kw, parts, sep); c == [] || c[|c| - 1] == '\n'
  {
    KeywordsA();
    KeywordsB();
    CleanShort(", ");
    CleanShort("\n");
    JoinText(parts, sep);
    if parts == [] {
      CleanShort([]);
    } else {
      var j := Join(parts, sep);
      if Clean(j) {
        CleanAppend(kw, j);
        CleanAppend(kw + j, "\n");
      }
      CleanPartOf(kw, j, "\n");
    }
  }

  /** The first line and the FROM line: clean exactly when the select items are. */
  lemma HeadText(select: seq<string>)
    ensures var head := "SELECT " + Join(select, ", ") + "\nFROM sales\n";
      head[|head| - 1] == '\n'
      && (Clean(head) <==> forall k :: 0 <= k < |select| ==> Clean(select[k]))
  {
    var j := Join(select, ", ");
    CleanShort(", ");
    JoinText(select, ", ");
    KeywordsA();
    if Clean(j) {
      CleanAppend("SELECT ", j);
      CleanAppend("SELECT " + j, "\nFROM sales\n");
    }
    CleanPartOf("SELECT ", j, "\nFROM sales\n");
  }

  /** Each of the first four pieces of a clean text is clean. */
  lemma CleanPieces(head: string, wc: string, gc: string, oc: string, lim: string)
    ensures Clean(head + wc + gc + oc + lim) ==> Clean(head) && Clean(wc) && Clean(gc) && Clean(oc)
  {
    var sql := head + wc + gc + oc + lim;
    assert sql == [] + head + (wc + gc + oc + lim);
    CleanPartOf([], head, wc + gc + oc + lim);
    assert sql == head + wc + (gc + oc + lim);
    CleanPartOf(head, wc, gc + oc + lim);
    assert sql == (head + wc) + gc + (oc + lim);
    CleanPartOf(head + wc, gc, oc + lim);
    CleanPartOf(head + wc + gc, oc, lim);
  }

  /** The fixed text of a statement never holds a banned word: it is clean exactly when its parts are. */
  lemma StatementText(select: seq<string>, where: seq<string>, group: seq<string>, order: seq<string>, limit: int)
    ensures Clean(Statement(select, where, group, order, limit)) <==>
      (forall k :: 0 <= k < |select| ==> Clean(select[k]))
      && (forall k :: 0 <= k < |where| ==> Clean(where[k]))
      && (forall k :: 0 <= k < |group| ==> Clean(group[k]))
      && (forall k :: 0 <= k < |order| ==> Clean(order[k]))
  {
    var head := "SELECT " + Join(select, ", ") + "\nFROM sales\n";
    var wc := Clause("WHERE ", where, " AND ");
    var gc := Clause("GROUP BY ", group, ", ");
    var oc := Clause("ORDER BY ", order, ", ");
    var lim := "LIMIT " + IntToString(limit);
    HeadText(select);
    ClauseText("WHERE ", where, " AND ");
    ClauseText("GROUP BY ", group, ", ");
    ClauseText("ORDER BY ", order, ", ");
    CleanPieces(head, wc, gc, oc, lim);
    if Clean(head) && Clean(wc) && Clean(gc) && Clean(oc) {
      KeywordsB();
      IntClean(limit);
      CleanAppend("LIMIT ", IntToString(limit));
      StatementTail(head, wc, gc, oc, lim);
    }
  }

  /** Clean clauses added after a clean text that ends with a line break. */
  lemma StatementTail(head: string, wc: string, gc: string, oc: string, lim: string)
    requires Clean(head) && Clean(wc) && Clean(gc) && Clean(oc) && Clean(lim)
    requires head != [] && head[|head| - 1] == '\n'
    requires wc == [] || wc[|wc| - 1] == '\n'
    requires gc == [] || gc[|gc| - 1] == '\n'
    requires oc == [] || oc[|oc| - 1] == '\n'
    ensures Clean(head + wc + gc + oc + lim)
  {
    CleanAppend(head, wc);
    assert (head + wc)[|head + wc| - 1] == '\n';
    CleanAppend(head + wc, gc);
    assert (head + wc + gc)[|head + wc + gc| - 1] == '\n';
    CleanAppend(head + wc + gc, oc);
    assert (head + wc + gc + oc)[|head + wc + gc + oc| - 1] == '\n';
    CleanAppend(head + wc + gc + oc, lim);
  }

  /** The select list is clean exactly when the group columns are: the metric items always are. */
  lemma SelectText(q: Query)
    requires InCatalog(q)
    ensures (forall k :: 0 <= k < |SelectList(q)| ==> Clean(SelectList(q)[k]))
      <==> forall k :: 0 <= k < |q.groupCols| ==> Clean(q.groupCols[k])
  {
    var select, group := SelectList(q), QuoteAll(q.groupCols);
    forall k | 0 <= k < |q.groupCols| ensures Clean(group[k]) <==> Clean(q.groupCols[k]) {
      QuoteClean(q.groupCols[k]);
    }
    forall k | 0 <= k < |select| && (forall i :: 0 <= i < |q.groupCols| ==> Clean(q.groupCols[i]))
      ensures Clean(select[k])
    {
      if q.groupCols == [] && q.metrics == [] {
        MetricItemClean(DefaultMetric);
      } else if k < |q.groupCols| {
        assert select[k] == group[k];
      } else {
        var m := q.metrics[k - |q.groupCols|];
        assert m in q.metrics;
        assert select[k] == MetricItem(m);
        MetricItemClean(m);
      }
    }
    forall k | 0 <= k < |q.groupCols| ensures Clean(select[k]) ==> Clean(q.groupCols[k]) {
      assert select[k] == group[k];
    }
  }

  /** A query's text is clean exactly when the text it took from the plan is. */
  lemma RenderText(q: Query)
    requires InCatalog(q)
    requires forall k :: 0 <= k < |q.order| && q.order[k].key.MetricKey? ==> q.order[k].key.name in SafeMetrics
    ensures Clean(Render(q)) <==> PlanTextClean(q)
  {
    var select, where, group, order := SelectList(q), PredicateTexts(q.preds), QuoteAll(q.groupCols), OrderTexts(q.order);
    StatementText(select, where, group, order, q.limit);
    SelectText(q);
    forall k | 0 <= k < |q.groupCols| ensures Clean(group[k]) <==> Clean(q.groupCols[k]) {
      QuoteClean(q.groupCols[k]);
    }
    forall k | 0 <= k < |q.preds| ensures Clean(where[k]) <==> PredicateClean(q.preds[k]) {
      PredicateTextClean(q.preds[k]);
    }
    forall k | 0 <= k < |q.order| ensures Clean(order[k]) <==> OrderClean(q.order[k]) {
      OrderTermText(q.order[k]);
    }
  }

  /**
   * The gate lets a sound query's text through exactly when the text the
   * plan put into it is free of banned words: the template, the catalogue
   * and the printed numbers never trip it on their own.
   */
  lemma RenderedGate(q: Query, cols: seq<string>)
    requires Sound(q, cols)
    ensures ValidateSqlIsSelect(Some(Render(q))) == Pass <==> PlanTextClean(q)
  {
    forall k | 0 <= k < |q.order| && q.order[k].key.MetricKey? ensures q.order[k].key.name in SafeMetrics {
      assert q.order[k] in q.order;
    }
    RenderText(q);
    GateOnStatement(SelectList(q), PredicateTexts(q.preds), QuoteAll(q.groupCols), OrderTexts(q.order), q.limit);
  }

  // ---------------------------------------------------------------- a second statement

  /** A plan that only sorts, by one column, in the given order. */
  function SortOnlyPlan(col: string, order: string): Value {
    Dict([("sort", List([Dict([("by", Str(col)), ("order", Str(order))])]))])
  }

  /** The query `SortOnlyPlan` reads as: the default metric, one sort term, the default limit. */
  lemma SortOnlyQuery(col: string, order: string, cols: seq<string>)
    requires col in cols && order != ""
    ensures PlanQuery(SortOnlyPlan(col, order), cols)
      == Success(Query([], [DefaultMetric], [], [OrderTerm(ColumnKey(col), Upper(Lower(order)))], DefaultLimit))
  {
    var d := SortOnlyPlan(col, order).entries;
    var s := Dict([("by", Str(col)), ("order", Str(order))]);
    var t := OrderTerm(ColumnKey(col), Upper(Lower(order)));
    var q := Query([], [DefaultMetric], [], [t], DefaultLimit);
    GetAt(d, 0);
    GetMissing(d, "limit");
    GetMissing(d, "group_by");
    GetMissing(d, "metrics");
    GetMissing(d, "time");
    GetMissing(d, "filters");
    GetAt(s.entries, 0);
    GetAt(s.entries, 1);
    assert SortTerm(s, cols) == Success(Some(t));
    assert [s][..0] == [];
    assert [] + [t] == [t];
    CatalogMetricsOfKnown([DefaultMetric]);
    assert seq(1, k requires 0 <= k < 1 => Str([DefaultMetric][k])) == [Str(DefaultMetric)];
    PlanQueryIs(Dict(d), cols, DefaultLimit, [], [Str(DefaultMetric)], [s], q);
  }

  /** The parts of that query the statement's tail depends on. */
  lemma SortOnlyShape(col: string, order: string, cols: seq<string>)
    requires col in cols && order != ""
    ensures PlanQuery(SortOnlyPlan(col, order), cols).Success?
    ensures var q := PlanQuery(SortOnlyPlan(col, order), cols).value;
      q.preds == [] && q.groupCols == [] && q.order == [OrderTerm(ColumnKey(col), Upper(Lower(order)))]
      && q.limit == DefaultLimit
  {
    SortOnlyQuery(col, order, cols);
  }

  /** A query with no WHERE or GROUP BY part that sorts by one column renders as the frame, its ORDER BY clause and its LIMIT. */
  lemma SortedOnlyStatement(q: Query)
    requires InCatalog(q) && q.preds == [] && q.groupCols == [] && |q.order| == 1 && q.order[0].key.ColumnKey?
    ensures EndsWith(Render(q), "ORDER BY " + Quote(q.order[0].key.name) + " " + q.order[0].dir + "\nLIMIT " + IntToString(q.limit))
  {
    var o := OrderText(q.order[0]);
    assert PredicateTexts(q.preds) == [] && QuoteAll(q.groupCols) == [];
    assert OrderTexts(q.order) == [o];
    SortClauseText(q.order[0].key.name, q.order[0].dir, IntToString(q.limit));
    SortedStatementEnds(SelectList(q), [o], q.limit);
  }

  /** The ORDER BY clause of one column term, followed by the LIMIT clause. */
  lemma SortClauseText(name: string, dir: string, lim: string)
    ensures Clause("ORDER BY ", [Quote(name) + " " + dir], ", ") + "LIMIT " + lim
      == "ORDER BY " + Quote(name) + " " + dir + "\nLIMIT " + lim
  {
    var o := Quote(name) + " " + dir;
    assert Clause("ORDER BY ", [o], ", ") == "ORDER BY " + o + "\n";
    assert "\n" + "LIMIT " == "\nLIMIT ";
  }

  /** With no WHERE and no GROUP BY clause, a statement ends with its ORDER BY clause and its LIMIT. */
  lemma SortedStatementEnds(select: seq<string>, order: seq<string>, limit: int)
    ensures EndsWith(Statement(select, [], [], order, limit), Clause("ORDER BY ", order, ", ") + "LIMIT " + IntToString(limit))
  {
    var head := "SELECT " + Join(select, ", ") + "\nFROM sales\n";
    var tail := Clause("ORDER BY ", order, ", ") + "LIMIT " + IntToString(limit);
    assert Statement(select, [], [], order, limit) == head + tail;
  }

  /** The gate's verdict on a query that only sorts by one column. */
  lemma SortedOnlyGate(q: Query, cols: seq<string>)
    requires Sound(q, cols) && q.preds == [] && q.groupCols == [] && |q.order| == 1 && q.order[0].key.ColumnKey?
    ensures ValidateSqlIsSelect(Some(Render(q))) == Pass <==> Clean(q.order[0].key.name) && Clean(q.order[0].dir)
  {
    assert PlanTextClean(q) <==> OrderClean(q.order[0]);
    RenderedGate(q, cols);
  }

  /**
   * A sort order is pasted into the statement upper-cased and is never
   * compared with ASC or DESC: the statement of a plan that sorts by a known
   * column in any order ends with that order, and the gate passes it
   * exactly when neither the column nor the order holds a banned word.
   */
  lemma OrderPasted(col: string, order: string, cols: seq<string>)
    requires col in cols && order != ""
    ensures Compile(SortOnlyPlan(col, order), cols).Success?
    ensures var sql := Compile(SortOnlyPlan(col, order), cols).value;
      EndsWith(sql, "ORDER BY " + Quote(col) + " " + Upper(Lower(order)) + "\nLIMIT " + IntToString(DefaultLimit))
      && (ValidateSqlIsSelect(Some(sql)) == Pass <==> Clean(col) && Clean(order))
  {
    SortOnlyShape(col, order, cols);
    PlanQuerySound(SortOnlyPlan(col, order), cols);
    var q := PlanQuery(SortOnlyPlan(col, order), cols).value;
    SortedOnlyStatement(q);
    SortedOnlyGate(q, cols);
    LowerUpperLower(order);
  }

  /** A sort order that carries a second LIMIT and a second statement. */
  const InjectedOrder: string := "desc " + "limit 1; " + "select 1"

  /** The compiler turns the order `desc limit 1; select 1` into `DESC LIMIT 1; SELECT 1`. */
  lemma InjectedDirection()
    ensures Upper(Lower(InjectedOrder)) == "DESC LIMIT 1; SELECT 1"
  {
  }

  /** The order `desc limit 1; select 1` holds no banned word. */
  lemma InjectedClean()
    ensures Clean(InjectedOrder)
  {
    var a, b, c := "desc ", "limit 1; ", "select 1";
    WithoutTP(a);
    WithoutRDHP(b);
    WithoutRDHP(c);
    CleanAppend(a, b);
    CleanAppend(a + b, c);
  }

  /**
   * The statement is meant to be a single SELECT with one LIMIT and no
   * semicolon, but sorting by Status in the order `desc limit 1; select 1`
   * gives a statement that ends `ORDER BY "Status" DESC LIMIT 1; SELECT 1`
   * and then the real LIMIT, and the gate passes it, since none of its
   * words is banned.
   */
  lemma GatePassesSecondStatement()
    ensures Upper(Lower(InjectedOrder)) == "DESC LIMIT 1; SELECT 1"
    ensures Compile(SortOnlyPlan("Status", InjectedOrder), ["Status"]).Success?
    ensures var sql := Compile(SortOnlyPlan("Status", InjectedOrder), ["Status"]).value;
      EndsWith(sql, "ORDER BY " + Quote("Status") + " " + Upper(Lower(InjectedOrder)) + "\nLIMIT " + IntToString(DefaultLimit))
      && ValidateSqlIsSelect(Some(sql)) == Pass
  {
    InjectedDirection();
    InjectedClean();
    WithoutRDHP("Status");
    OrderPasted("Status", InjectedOrder, ["Status"]);
  }
}
