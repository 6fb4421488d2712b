/**
 * Text in which the statement gate finds no banned word, and how such text
 * composes. Every banned word is a run of at least four lower-case letters,
 * so two clean texts stay clean when joined at a character that is not a
 * letter; and a text is clean when none of its characters lower-cases into
 * a set that holds a letter of every banned word.
 */
module CleanText {
  import opened Strings
  import opened Validators
  import opened SqlBuilder
  import opened SqlBuilderFacts

  /** Text the gate's banned-word test lets through. */
  predicate Clean(s: string) {
    !HasBannedWord(Lower(s))
  }

  predicate IsLetter(c: char) {
    'a' <= c <= 'z' || 'A' <= c <= 'Z'
  }

  /** Every banned word is made of at least four lower-case letters. */
  lemma BannedLetters(w: string)
    requires w in Banned
    ensures |w| >= 4 && forall j :: 0 <= j < |w| ==> 'a' <= w[j] <= 'z'
  {
  }

  /** A character that is not a letter lower-cases to itself, so never to a lower-case letter. */
  lemma NonLetterLower(c: char)
    requires !IsLetter(c)
    ensures !('a' <= LowerChar(c) <= 'z')
  {
  }

  /** Text too short to hold a banned word. */
  lemma CleanShort(s: string)
    requires |s| < 4
    ensures Clean(s)
  {
    forall w | w in Banned ensures !Contains(Lower(s), w) {
      BannedLetters(w);
    }
  }

  /** A banned word in the first part of a concatenation. */
  lemma OccursLeft(x: string, y: string, w: string, i: int)
    requires 0 <= i && i + |w| <= |x| && !OccursAt(x, w, i)
    ensures !OccursAt(x + y, w, i)
  {
    assert (x + y)[i..i + |w|] == x[i..i + |w|];
  }

  /** A banned word in the second part of a concatenation. */
  lemma OccursRight(x: string, y: string, w: string, i: int)
    requires |x| <= i && !OccursAt(y, w, i - |x|)
    ensures !OccursAt(x + y, w, i)
  {
    if i + |w| <= |x + y| {
      assert (x + y)[i..i + |w|] == y[i - |x|..i - |x| + |w|];
    }
  }

  /** A run of lower-case letters across the join of `x` and `y` needs a letter on each side. */
  lemma OccursAcross(x: string, y: string, w: string, i: int)
    requires forall j :: 0 <= j < |w| ==> 'a' <= w[j] <= 'z'
    requires 0 <= i < |x| < i + |w|
    requires !('a' <= x[|x| - 1] <= 'z') || (y != [] && !('a' <= y[0] <= 'z'))
    ensures !OccursAt(x + y, w, i)
  {
    if i + |w| <= |x + y| {
      var j := |x| - 1 - i;
      var t := (x + y)[i..i + |w|];
      assert t[j] == x[|x| - 1] && t[j + 1] == y[0];
    }
  }

  /**
   * Two clean texts joined where one side is not a letter: a banned word
   * across the join would need letters on both sides of it.
   */
  lemma CleanAppend(a: string, b: string)
    requires Clean(a) && Clean(b)
    requires a == [] || b == [] || !IsLetter(a[|a| - 1]) || !IsLetter(b[0])
    ensures Clean(a + b)
  {
    var la, lb := Lower(a), Lower(b);
    LowerAppend(a, b);
    if a != [] && b != [] {
      if !IsLetter(a[|a| - 1]) {
        NonLetterLower(a[|a| - 1]);
      } else {
        NonLetterLower(b[0]);
      }
    }
    forall w, i | w in Banned && 0 <= i <= |a + b| ensures !OccursAt(la + lb, w, i) {
      BannedLetters(w);
      if i + |w| <= |a| {
        assert !OccursAt(la, w, i);
        OccursLeft(la, lb, w, i);
      } else if i >= |a| {
        assert !OccursAt(lb, w, i - |a|);
        OccursRight(la, lb, w, i);
      } else if b != [] {
        assert la[|a| - 1] == LowerChar(a[|a| - 1]) && lb[0] == LowerChar(b[0]);
        OccursAcross(la, lb, w, i);
      }
    }
  }

  /** Three clean texts, the middle one starting and ending with a non-letter. */
  lemma CleanAround(a: string, m: string, b: string)
    requires Clean(a) && Clean(m) && Clean(b)
    requires m != [] && !IsLetter(m[0]) && !IsLetter(m[|m| - 1])
    ensures Clean(a + m + b)
  {
    CleanAppend(a, m);
    CleanAppend(a + m, b);
  }

  /** A banned word in a part of a text is in the text. */
  lemma LowerContainsPart(a: string, m: string, b: string, w: string)
    ensures Contains(Lower(m), w) ==> Contains(Lower(a + m + b), w)
  {
    if Contains(Lower(m), w) {
      ContainsInside(Lower(a), Lower(m), Lower(b), w);
      LowerAppend(a, m);
      LowerAppend(a + m, b);
    }
  }

  /** A part of a clean text is clean. */
  lemma CleanPart(a: string, m: string, b: string)
    requires Clean(a + m + b)
    ensures Clean(m)
  {
    forall w | w in Banned ensures !Contains(Lower(m), w) {
      LowerContainsPart(a, m, b, w);
    }
  }

  /** The implication form of `CleanPart`. */
  lemma CleanPartOf(a: string, m: string, b: string)
    ensures Clean(a + m + b) ==> Clean(m)
  {
    if Clean(a + m + b) {
      CleanPart(a, m, b);
    }
  }

  /** Two texts joined by a clean text that starts and ends with a non-letter: clean exactly when both are. */
  lemma CleanJoined(a: string, m: string, b: string)
    requires Clean(m) && m != [] && !IsLetter(m[0]) && !IsLetter(m[|m| - 1])
    ensures Clean(a + m + b) <==> Clean(a) && Clean(b)
  {
    if Clean(a) && Clean(b) {
      CleanAround(a, m, b);
    }
    assert a + m + b == [] + a + (m + b);
    CleanPartOf([], a, m + b);
    assert a + m + b == (a + m) + b + [];
    CleanPartOf(a + m, b, []);
  }

  /** Parts joined by a separator that starts and ends with a non-letter. */
  lemma {:induction false} CleanJoin(parts: seq<string>, sep: string)
    requires forall k :: 0 <= k < |parts| ==> Clean(parts[k])
    requires Clean(sep) && sep != [] && !IsLetter(sep[0]) && !IsLetter(sep[|sep| - 1])
    ensures Clean(Join(parts, sep))
    decreases |parts|
  {
    if |parts| == 0 {
      CleanShort("");
    } else if |parts| == 1 {
      assert Join(parts, sep) == parts[0];
    } else {
      CleanJoin(parts[1..], sep);
      JoinFront(parts, sep);
      CleanAround(parts[0], sep, Join(parts[1..], sep));
    }
  }

  // ---------------------------------------------------------------- letter sets

  /** `m` holds a letter of every banned word. */
  predicate Hits(m: set<char>) {
    forall w :: w in Banned ==> exists j :: 0 <= j < |w| && w[j] in m
  }

  /** No character of `s` lower-cases into `m`. */
  predicate Avoids(s: string, m: set<char>) {
    forall k :: 0 <= k < |s| ==> LowerChar(s[k]) !in m
  }

  /** A word whose `j`-th letter is not at `i + j` of `t` does not occur at `i`. */
  lemma MissesAt(t: string, w: string, i: int, j: int)
    requires 0 <= j < |w| && 0 <= i && i + |w| <= |t| && t[i + j] != w[j]
    ensures !OccursAt(t, w, i)
  {
    assert t[i..i + |w|][j] == t[i + j];
  }

  /** A text that avoids a letter of every banned word holds none of them. */
  lemma CleanIfAvoids(s: string, m: set<char>)
    requires Hits(m) && Avoids(s, m)
    ensures Clean(s)
  {
    var t := Lower(s);
    forall w, i | w in Banned && 0 <= i <= |s| ensures !OccursAt(t, w, i) {
      if i + |w| <= |s| {
        var j :| 0 <= j < |w| && w[j] in m;
        assert t[i + j] == LowerChar(s[i + j]) && LowerChar(s[i + j]) !in m;
        MissesAt(t, w, i, j);
      }
    }
  }

  /** `m` holds the letter at `picks[k]` of the `k`-th banned word, for every `k`. */
  lemma HitsBy(m: set<char>, picks: seq<int>)
    requires |picks| == |Banned|
    requires forall k :: 0 <= k < |Banned| ==> 0 <= picks[k] < |Banned[k]| && Banned[k][picks[k]] in m
    ensures Hits(m)
  {
    forall w | w in Banned ensures exists j :: 0 <= j < |w| && w[j] in m {
      var k :| 0 <= k < |Banned| && Banned[k] == w;
      assert w[picks[k]] in m;
    }
  }

  // Each banned word has one of the letters below, so a text with none of them is clean.

  /** No t or p, in either case. */
  lemma WithoutTP(s: string)
    requires Avoids(s, {'t', 'p'})
    ensures Clean(s)
  {
    HitsBy({'t', 'p'}, [5, 1, 4, 3, 2, 4, 1, 2, 0]);
    CleanIfAvoids(s, {'t', 'p'});
  }

  /** No i, d, a or o, in either case. */
  lemma WithoutIDAO(s: string)
    requires Avoids(s, {'i', 'd', 'a', 'o'})
    ensures Clean(s)
  {
    HitsBy({'i', 'd', 'a', 'o'}, [0, 2, 0, 0, 0, 3, 0, 1, 2]);
    CleanIfAvoids(s, {'i', 'd', 'a', 'o'});
  }

  /** No r, d, h or p, in either case. */
  lemma WithoutRDHP(s: string)
    requires Avoids(s, {'r', 'd', 'h', 'p'})
    ensures Clean(s)
  {
    HitsBy({'r', 'd', 'h', 'p'}, [4, 1, 0, 0, 4, 1, 5, 2, 0]);
    CleanIfAvoids(s, {'r', 'd', 'h', 'p'});
  }

  /** No e, p or c, in either case. */
  lemma WithoutEPC(s: string)
    requires Avoids(s, {'e', 'p', 'c'})
    ensures Clean(s)
  {
    HitsBy({'e', 'p', 'c'}, [3, 1, 1, 3, 3, 0, 4, 0, 0]);
    CleanIfAvoids(s, {'e', 'p', 'c'});
  }

  /** No e, p or a, in either case. */
  lemma WithoutEPA(s: string)
    requires Avoids(s, {'e', 'p', 'a'})
    ensures Clean(s)
  {
    HitsBy({'e', 'p', 'a'}, [3, 1, 1, 3, 0, 2, 0, 2, 0]);
    CleanIfAvoids(s, {'e', 'p', 'a'});
  }

  /** No n, d, a or c, in either case. */
  lemma WithoutNDAC(s: string)
    requires Avoids(s, {'n', 'd', 'a', 'c'})
    ensures Clean(s)
  {
    HitsBy({'n', 'd', 'a', 'c'}, [1, 2, 0, 0, 0, 0, 0, 0, 2]);
    CleanIfAvoids(s, {'n', 'd', 'a', 'c'});
  }

  /** No r, p, l or h, in either case. */
  lemma WithoutRPLH(s: string)
    requires Avoids(s, {'r', 'p', 'l', 'h'})
    ensures Clean(s)
  {
    HitsBy({'r', 'p', 'l', 'h'}, [4, 1, 2, 1, 1, 1, 5, 2, 0]);
    CleanIfAvoids(s, {'r', 'p', 'l', 'h'});
  }

  /** No t, r or o, in either case. */
  lemma WithoutTRO(s: string)
    requires Avoids(s, {'t', 'r', 'o'})
    ensures Clean(s)
  {
    HitsBy({'t', 'r', 'o'}, [5, 4, 4, 1, 2, 1, 1, 1, 1]);
    CleanIfAvoids(s, {'t', 'r', 'o'});
  }

  /** No i, d, l, c or p, in either case. */
  lemma WithoutIDLCP(s: string)
    requires Avoids(s, {'i', 'd', 'l', 'c', 'p'})
    ensures Clean(s)
  {
    HitsBy({'i', 'd', 'l', 'c', 'p'}, [0, 2, 0, 0, 1, 0, 4, 0, 0]);
    CleanIfAvoids(s, {'i', 'd', 'l', 'c', 'p'});
  }

  // ---------------------------------------------------------------- the catalogue

  lemma CataloguePiecesA()
    ensures Clean("SUM(COALESCE(") && Clean("Amount, 0))") && Clean("SUM(CASE WHEN ")
  {
    WithoutTP("SUM(COALESCE(");
    WithoutEPC("Amount, 0))");
    WithoutTP("SUM(CASE WHEN ");
  }

  lemma CataloguePiecesB()
    ensures Clean("Status LIKE ") && Clean("'Shipped%' ") && Clean("THEN ") && Clean("lower(")
  {
    WithoutRDHP("Status LIKE ");
    WithoutTRO("'Shipped%' ");
    WithoutIDAO("THEN ");
    WithoutTP("lower(");
  }

  lemma CataloguePiecesC()
    ensures Clean("COALESCE(Amount,0) ") && Clean("ELSE 0 END)")
  {
    WithoutRDHP("COALESCE(Amount,0) ");
    WithoutTP("ELSE 0 END)");
  }

  lemma CataloguePiecesD()
    ensures Clean("Status) ") && Clean("LIKE '%cancelled%' ")
  {
    WithoutRDHP("Status) ");
    WithoutTP("LIKE '%cancelled%' ");
  }

  lemma CataloguePiecesE()
    ensures Clean("COUNT(DISTINCT ") && Clean("\"Order ID\")") && Clean("AVG(CASE WHEN ")
  {
    WithoutEPA("COUNT(DISTINCT ");
    WithoutTP("\"Order ID\")");
    WithoutTP("AVG(CASE WHEN ");
  }

  lemma CataloguePiecesF()
    ensures Clean("SUM(COALESCE(Qty,0))")
  {
    WithoutRDHP("SUM(COALESCE(Qty,0))");
  }

  lemma CataloguePiecesG()
    ensures Clean("1.0 ELSE 0.0 END)")
  {
    WithoutTP("1.0 ELSE 0.0 END)");
  }

  /** The shipped-amount expression up to its `THEN`. */
  lemma ShippedHeadClean()
    ensures Clean("SUM(CASE WHEN " + "Status LIKE " + "'Shipped%' " + "THEN ")
  {
    CataloguePiecesA();
    CataloguePiecesB();
    CleanAppend("SUM(CASE WHEN ", "Status LIKE ");
    CleanAppend("SUM(CASE WHEN " + "Status LIKE ", "'Shipped%' ");
    CleanAppend("SUM(CASE WHEN " + "Status LIKE " + "'Shipped%' ", "THEN ");
  }

  /** The two cancellation expressions up to their `THEN`. */
  lemma CancelledHeadClean(sum: string)
    requires sum == "SUM(CASE WHEN " || sum == "AVG(CASE WHEN "
    ensures Clean(sum + "lower(" + "Status) " + "LIKE '%cancelled%' " + "THEN ")
  {
    CataloguePiecesA();
    CataloguePiecesB();
    CataloguePiecesD();
    CataloguePiecesE();
    CleanAppend(sum, "lower(");
    CleanAppend(sum + "lower(", "Status) ");
    CleanAppend(sum + "lower(" + "Status) ", "LIKE '%cancelled%' ");
    CleanAppend(sum + "lower(" + "Status) " + "LIKE '%cancelled%' ", "THEN ");
  }

  /** The two amount expressions that end with the coalesced amount. */
  lemma AmountClean(head: string)
    requires Clean(head) && head != [] && head[|head| - 1] == ' '
    ensures Clean(head + "COALESCE(Amount,0) " + "ELSE 0 END)")
  {
    CataloguePiecesC();
    CleanAppend(head, "COALESCE(Amount,0) ");
    CleanAppend(head + "COALESCE(Amount,0) ", "ELSE 0 END)");
  }

  lemma ShortExpressionsClean()
    ensures Clean(SafeMetrics["gross_amount"]) && Clean(SafeMetrics["orders"]) && Clean(SafeMetrics["units"])
  {
    CataloguePiecesA();
    CataloguePiecesE();
    CataloguePiecesF();
    CleanAppend("SUM(COALESCE(", "Amount, 0))");
    CleanAppend("COUNT(DISTINCT ", "\"Order ID\")");
  }

  lemma CaseExpressionsClean()
    ensures Clean(SafeMetrics["shipped_amount"])
    ensures Clean(SafeMetrics["cancelled_amount"])
    ensures Clean(SafeMetrics["cancel_rate"])
  {
    ShippedHeadClean();
    AmountClean("SUM(CASE WHEN " + "Status LIKE " + "'Shipped%' " + "THEN ");
    CancelledHeadClean("SUM(CASE WHEN ");
    AmountClean("SUM(CASE WHEN " + "lower(" + "Status) " + "LIKE '%cancelled%' " + "THEN ");
    CancelledHeadClean("AVG(CASE WHEN ");
    CataloguePiecesG();
    CleanAppend("AVG(CASE WHEN " + "lower(" + "Status) " + "LIKE '%cancelled%' " + "THEN ", "1.0 ELSE 0.0 END)");
  }

  /** Every catalogued expression is free of banned words. */
  lemma ExpressionsClean()
    ensures forall m :: m in SafeMetrics ==> Clean(SafeMetrics[m])
  {
    ShortExpressionsClean();
    CaseExpressionsClean();
  }

  lemma NamePiecesA()
    ensures Clean("gross_amount") && Clean("shipped_amount") && Clean("orders")
  {
    WithoutEPC("gross_amount");
    WithoutTRO("shipped");
    WithoutEPC("_amount");
    CleanAppend("shipped", "_amount");
    assert "shipped" + "_amount" == "shipped_amount";
    WithoutTP("orders");
  }

  lemma NamePiecesB()
    ensures Clean("cancelled_amount") && Clean("units")
  {
    WithoutTP("cancelled");
    WithoutEPC("_amount");
    CleanAppend("cancelled", "_amount");
    assert "cancelled" + "_amount" == "cancelled_amount";
    WithoutEPA("units");
  }

  lemma NamePiecesC()
    ensures Clean("cancel_rate")
  {
    WithoutTP("cancel");
    WithoutIDLCP("_rate");
    CleanAppend("cancel", "_rate");
    assert "cancel" + "_rate" == "cancel_rate";
  }

  /** Every metric name is free of banned words. */
  lemma NamesClean()
    ensures forall m :: m in SafeMetrics ==> Clean(m)
  {
    NamePiecesA();
    NamePiecesB();
    NamePiecesC();
  }

  // ---------------------------------------------------------------- the template

  lemma KeywordsA()
    ensures Clean("SELECT ") && Clean("\nFROM sales\n") && Clean("WHERE ") && Clean(" AND ")
  {
    WithoutIDAO("SELECT ");
    WithoutTP("\nFROM sales\n");
    WithoutTP("WHERE ");
    WithoutTP(" AND ");
  }

  lemma KeywordsB()
    ensures Clean("GROUP BY ") && Clean("ORDER BY ") && Clean("LIMIT ") && Clean(" AS ")
  {
    WithoutNDAC("GROUP BY ");
    WithoutTP("ORDER BY ");
    WithoutEPA("LIMIT ");
    WithoutTP(" AS ");
  }

  lemma KeywordsC()
    ensures Clean(" >= DATE ") && Clean(" <= DATE ") && Clean(" IN (")
  {
    WithoutRPLH(" >= DATE ");
    WithoutRPLH(" <= DATE ");
    WithoutTP(" IN (");
  }

  lemma KeywordsD()
    ensures Clean("NULL") && Clean("True") && Clean("False")
  {
    WithoutTP("NULL");
    WithoutIDAO("True");
    WithoutTP("False");
  }

  lemma DateTermClean()
    ensures Clean(DateTerm)
  {
    WithoutNDAC("TRY_STRPTIME(");
    WithoutRPLH("Date, '%m-%d-%y')");
    CleanAppend("TRY_STRPTIME(", "Date, '%m-%d-%y')");
  }

  // ---------------------------------------------------------------- plan text as printed

  /** Decimal digits hold no letter. */
  lemma DigitsClean(s: string)
    requires AllDigits(s)
    ensures Clean(s)
  {
    forall k | 0 <= k < |s| ensures LowerChar(s[k]) !in {'t', 'p'} {
      assert IsDigit(s[k]);
    }
    WithoutTP(s);
  }

  /** `str` of an integer is free of banned words. */
  lemma IntClean(i: int)
    ensures Clean(IntToString(i))
  {
    if i < 0 {
      DigitsClean(NatToString(-i));
      CleanShort("-");
      CleanAppend("-", NatToString(-i));
    } else {
      DigitsClean(NatToString(i));
    }
  }

  /** Doubling the quotes of a clean text keeps it clean: the quotes split it at non-letters. */
  lemma {:induction false} EscapeClean(s: string)
    requires Clean(s)
    ensures Clean(Escape(s))
    decreases |s|
  {
    if i :| 0 <= i < |s| && s[i] == '\'' {
      var a, b := s[..i], s[i + 1..];
      CleanAroundQuote(s, i);
      EscapeClean(a);
      EscapeClean(b);
      EscapeAtQuote(s, i);
      assert Escape(a) + ("''" + Escape(b)) == Escape(a) + "''" + Escape(b);
      CleanShort("''");
      CleanAround(Escape(a), "''", Escape(b));
    } else {
      EscapeQuoteless(s);
    }
  }

  /** The two sides of a quote in a clean text are clean. */
  lemma CleanAroundQuote(s: string, i: int)
    requires 0 <= i < |s| && s[i] == '\'' && Clean(s)
    ensures Clean(s[..i]) && Clean(s[i + 1..])
  {
    var a, b := s[..i], s[i + 1..];
    assert s == a + "'" + b;
    assert [] + a + ("'" + b) == s;
    CleanPart([], a, "'" + b);
    assert (a + "'") + b + [] == s;
    CleanPart(a + "'", b, []);
  }

  /** Escaping a text splits at each quote, which is doubled. */
  lemma EscapeAtQuote(s: string, i: int)
    requires 0 <= i < |s| && s[i] == '\''
    ensures Escape(s) == Escape(s[..i]) + ("''" + Escape(s[i + 1..]))
  {
    var a, b := s[..i], s[i + 1..];
    assert s == a + ("'" + b);
    EscapeAppend(a, "'" + b);
    EscapeAppend("'", b);
    assert Escape("'") == "''";
  }

  /** A quoted name is clean exactly when the name is. */
  lemma QuoteClean(c: string)
    ensures Clean(Quote(c)) <==> Clean(c)
  {
    CleanShort("\"");
    if Clean(c) {
      CleanAppend("\"", c);
      CleanAppend("\"" + c, "\"");
    }
    CleanPartOf("\"", c, "\"");
  }
}
