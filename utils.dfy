/**
 * The helpers around the model call and the result table: `extract_json`
 * cuts the JSON object out of the model's reply (the span the regular
 * expression `\{.*\}` matches with DOTALL) and hands it to a JSON parser;
 * `summarize_df` describes a result table by its row count, its column
 * names and a sample of its first rows as records.
 */
module Utils {
  import opened Wrappers
  import opened Strings
  import opened Values

  // ---------------------------------------------------------------- extract_json

  const EmptyResponse := "Empty model response"
  const NoJsonFound := "No JSON found" + " in model output"

  /** The index of the first `c` in `s`, or `|s|` when there is none. */
  function IndexOf(s: string, c: char): (i: nat)
    ensures i <= |s|
    ensures i < |s| ==> s[i] == c
    ensures forall k :: 0 <= k < i ==> s[k] != c
  {
    if s == [] || s[0] == c then 0 else 1 + IndexOf(s[1..], c)
  }

  /** The index of the last `c` in `s`, or -1 when there is none. */
  function LastIndexOf(s: string, c: char): (j: int)
    ensures -1 <= j < |s|
    ensures j >= 0 ==> s[j] == c
    ensures forall k :: j < k < |s| ==> s[k] != c
  {
    if s == [] then -1
    else if s[|s| - 1] == c then |s| - 1
    else LastIndexOf(s[..|s| - 1], c)
  }

  /** `text[i..j + 1]` is a match of `\{.*\}`: it opens with `{` and closes with `}`. */
  predicate Braced(text: string, i: int, j: int) {
    0 <= i < j < |text| && text[i] == '{' && text[j] == '}'
  }

  /**
   * The text `re.search(r"\{.*\}", text, re.DOTALL)` matches: the leftmost
   * match, stretched by the greedy `.*` to the last `}`. `None` and the empty
   * reply are refused first, a reply with no match next.
   */
  function JsonSpan(text: Option<string>): (r: Result<string, Exc>)
    ensures text.GetOr("") == [] ==> r == Failure(ValueError(EmptyResponse))
    ensures text.GetOr("") != [] ==>
      (r.Failure? <==> !exists i, j :: Braced(text.GetOr(""), i, j))
    ensures text.GetOr("") != [] && r.Failure? ==> r.error == ValueError(NoJsonFound)
    ensures r.Success? ==>
      exists i, j :: Braced(text.GetOr(""), i, j) && r.value == text.GetOr("")[i..j + 1]
        && forall a, b :: Braced(text.GetOr(""), a, b) ==> i <= a && b <= j
  {
    var t := text.GetOr("");
    if t == [] then Failure(ValueError(EmptyResponse))
    else
      var i := IndexOf(t, '{');
      var j := LastIndexOf(t, '}');
      if i < j then
        assert Braced(t, i, j);
        Success(t[i..j + 1])
      else
        Failure(ValueError(NoJsonFound))
  }

  /**
   * `extract_json(text)`: the matched span handed to the JSON parser `loads`,
   * whose own errors pass through.
   */
  function ExtractJson(text: Option<string>, loads: string -> Result<Value, Exc>): (r: Result<Value, Exc>)
    ensures JsonSpan(text).Failure? ==> r == Failure(JsonSpan(text).error)
    ensures JsonSpan(text).Success? ==> r == loads(JsonSpan(text).value)
  {
    var span :- JsonSpan(text);
    loads(span)
  }

  /**
   * A reply that wraps one object in text holding no `{` before it and no `}`
   * after it (a code fence, a sentence) gives back exactly that object.
   */
  lemma SpanOfWrappedObject(before: string, obj: string, after: string)
    requires |obj| >= 2 && obj[0] == '{' && obj[|obj| - 1] == '}'
    requires forall k :: 0 <= k < |before| ==> before[k] != '{'
    requires forall k :: 0 <= k < |after| ==> after[k] != '}'
    ensures JsonSpan(Some(before + obj + after)) == Success(obj)
  {
    var t := before + obj + after;
    var lo, hi := |before|, |before| + |obj| - 1;
    assert t[lo] == '{' && t[hi] == '}';
    assert IndexOf(t, '{') == lo by {
      assert forall k :: 0 <= k < lo ==> t[k] == before[k];
    }
    assert LastIndexOf(t, '}') == hi by {
      assert forall k :: hi < k < |t| ==> t[k] == after[k - hi - 1];
    }
    assert t[lo..hi + 1] == obj;
  }

  // ---------------------------------------------------------------- summarize_df

  /** A result table: its column labels and its rows, one value per column. */
  datatype DataFrame = DataFrame(columns: seq<string>, rows: seq<seq<Value>>)

  predicate WellShaped(df: DataFrame) {
    forall k :: 0 <= k < |df.rows| ==> |df.rows[k]| == |df.columns|
  }

  const DefaultMaxRows := 8

  /** `df.head(n)`: the first `n` rows; a negative `n` drops the last `-n` rows. */
  function Head(rows: seq<seq<Value>>, n: int): (r: seq<seq<Value>>)
    ensures n >= 0 ==> |r| == if n < |rows| then n else |rows|
    ensures n < 0 ==> |r| == if |rows| + n > 0 then |rows| + n else 0
    ensures r == rows[..|r|]
  {
    if n >= 0 then rows[..if n < |rows| then n else |rows|]
    else rows[..if |rows| + n > 0 then |rows| + n else 0]
  }

  /** `columns[k]` is the last column with its label. */
  predicate LastLabel(columns: seq<string>, k: int)
    requires 0 <= k < |columns|
  {
    forall m :: k < m < |columns| ==> columns[m] != columns[k]
  }

  /** `r` holds every label of `columns` and, under each, the value of its last column. */
  ghost predicate RecordOf(r: seq<(string, Value)>, columns: seq<string>, row: seq<Value>)
    requires |row| == |columns|
  {
    (forall key :: Get(r, key).Some? <==> key in columns)
    && forall k :: 0 <= k < |columns| && LastLabel(columns, k) ==> Get(r, columns[k]) == Some(row[k])
  }

  /** Writing the last column of a row into the record of the earlier ones. */
  lemma RecordStep(columns: seq<string>, row: seq<Value>, prev: seq<(string, Value)>)
    requires |row| == |columns| > 0
    requires RecordOf(prev, columns[..|columns| - 1], row[..|columns| - 1])
    ensures RecordOf(Put(prev, columns[|columns| - 1], row[|columns| - 1]), columns, row)
  {
    var n := |columns|;
    var front, rest := columns[..n - 1], row[..n - 1];
    var r := Put(prev, columns[n - 1], row[n - 1]);
    forall key
      ensures Get(r, key).Some? <==> key in columns
    {
      assert key in columns <==> key in front || key == columns[n - 1];
    }
    forall k | 0 <= k < n && LastLabel(columns, k)
      ensures Get(r, columns[k]) == Some(row[k])
    {
      if k < n - 1 {
        assert columns[n - 1] != columns[k];
        assert front[k] == columns[k] && rest[k] == row[k];
        assert LastLabel(front, k);
      }
    }
  }

  /**
   * One row as a record of `to_dict(orient='records')`: each column label
   * maps to the row's value, a repeated label keeping its first place and
   * its last value.
   */
  function Record(columns: seq<string>, row: seq<Value>): (r: seq<(string, Value)>)
    requires |row| == |columns|
    ensures RecordOf(r, columns, row)
    decreases |columns|
  {
    if columns == [] then []
    else
      var n := |columns|;
      var prev := Record(columns[..n - 1], row[..n - 1]);
      RecordStep(columns, row, prev);
      Put(prev, columns[n - 1], row[n - 1])
  }

  function Records(columns: seq<string>, rows: seq<seq<Value>>): (r: seq<Value>)
    requires forall k :: 0 <= k < |rows| ==> |rows[k]| == |columns|
    ensures |r| == |rows|
    ensures forall k :: 0 <= k < |rows| ==> r[k] == Dict(Record(columns, rows[k]))
  {
    seq(|rows|, k requires 0 <= k < |rows| => Dict(Record(columns, rows[k])))
  }

  /**
   * `summarize_df(df, max_rows)`: `None` gives only a zero row count; a table
   * gives its row count and column labels, and a sample of its first rows
   * when it has any.
   */
  function SummarizeDf(df: Option<DataFrame>, maxRows: int): (r: Value)
    requires df.Some? ==> WellShaped(df.value)
    ensures r.Dict?
    ensures df.None? ==> r.entries == [("rows", Int(0))]
    ensures df.Some? ==> Get(r.entries, "rows") == Some(Int(|df.value.rows|))
    ensures df.Some? ==> Get(r.entries, "columns") == Some(List(Strs(df.value.columns)))
    ensures Get(r.entries, "sample").Some? <==> df.Some? && df.value.rows != []
  {
    match df
    case None => Dict([("rows", Int(0))])
    case Some(frame) =>
      var out := [("rows", Int(|frame.rows|)), ("columns", List(Strs(frame.columns)))];
      GetMissing(out, "sample");
      var sample := Head(frame.rows, maxRows);
      if |frame.rows| > 0 then Dict(Put(out, "sample", List(Records(frame.columns, sample))))
      else Dict(out)
  }

  /**
   * With a non-negative `max_rows`, the sample holds the first
   * `min(max_rows, len(df))` rows in order, each as the record mapping every
   * column label to the row's value under its last column of that label.
   */
  lemma SampleIsHead(frame: DataFrame, maxRows: nat, k: int, c: int)
    requires WellShaped(frame) && frame.rows != []
    requires 0 <= k < |frame.rows| && k < maxRows
    requires 0 <= c < |frame.columns|
    requires LastLabel(frame.columns, c)
    ensures Get(SummarizeDf(Some(frame), maxRows).entries, "sample").value.List?
    ensures var sample := Get(SummarizeDf(Some(frame), maxRows).entries, "sample").value.items;
      |sample| == (if maxRows < |frame.rows| then maxRows else |frame.rows|)
      && sample[k].Dict?
      && Get(sample[k].entries, frame.columns[c]) == Some(frame.rows[k][c])
  {
    var head := Head(frame.rows, maxRows);
    var out := [("rows", Int(|frame.rows|)), ("columns", List(Strs(frame.columns)))];
    assert SummarizeDf(Some(frame), maxRows) == Dict(Put(out, "sample", List(Records(frame.columns, head))));
    assert head[k] == frame.rows[k];
  }
}
