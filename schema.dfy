/**
 * The schema description shown to the planner and the column list read back
 * from it: `get_schema_metadata` writes one bullet line per data-frame column
 * followed by three bullet notes, and `_schema_cols` keeps the text before
 * " (dtype=" of every line that starts with "- ". The notes are bullet lines
 * too, so they come back as "columns" along with the real ones.
 */
module Schema {
  import opened Wrappers
  import opened Strings

  /** A data-frame column: its name and the text of its dtype. */
  datatype Column = Column(name: string, dtype: string)

  const Bullet := "- "
  const DtypeMark := " (dtype="

  const Heading := "Dataset" + " columns:"
  const NotesHeading := "Notes:"
  const DateNote := "Date column" + " is MM-DD-YY."
  const AmountNote := "Use Amount" + " as sales value" + " and Qty as units."
  const StatusNote := "Status indicates" + " shipped/cancelled" + "/returned states."

  /** The note lines that close the description. */
  const NoteLines := ["", NotesHeading, Bullet + DateNote, Bullet + AmountNote, Bullet + StatusNote]

  /** What `_schema_cols` reads from the three note lines. */
  const NoteEntries := [DateNote, AmountNote, StatusNote]

  function Names(cols: seq<Column>): (r: seq<string>)
    ensures |r| == |cols|
    ensures forall k :: 0 <= k < |cols| ==> r[k] == cols[k].name
  {
    seq(|cols|, k requires 0 <= k < |cols| => cols[k].name)
  }

  /** `f"- {c} (dtype={df[c].dtype})"`. */
  function ColumnLine(c: Column): (r: string)
    ensures StartsWith(r, Bullet)
  {
    Bullet + c.name + DtypeMark + c.dtype + ")"
  }

  function ColumnLines(cols: seq<Column>): (r: seq<string>)
    ensures |r| == |cols|
    ensures forall k :: 0 <= k < |cols| ==> r[k] == ColumnLine(cols[k])
  {
    seq(|cols|, k requires 0 <= k < |cols| => ColumnLine(cols[k]))
  }

  /** The lines of the description: heading, one line per column, the notes. */
  function SchemaLines(cols: seq<Column>): (r: seq<string>)
    ensures |r| == |cols| + 6
    ensures r[0] == Heading && r[1..|cols| + 1] == ColumnLines(cols)
    ensures r[|cols| + 1..] == NoteLines
  {
    [Heading] + ColumnLines(cols) + NoteLines
  }

  /** `get_schema_metadata(df)`: the description lines joined by newlines. */
  function GetSchemaMetadata(cols: seq<Column>): (r: string)
    ensures StartsWith(r, Heading)
  {
    JoinStartsWithFirst(SchemaLines(cols), "\n");
    Join(SchemaLines(cols), "\n")
  }

  // ---------------------------------------------------------------- reading columns back

  /** `line[2:].split(' (dtype=')[0].strip()` for a line starting with "- ". */
  function EntryOf(line: string): (r: string)
    requires StartsWith(line, Bullet)
    ensures Trimmed(r)
  {
    StripTrims(BeforeFirst(line[2..], DtypeMark));
    Strip(BeforeFirst(line[2..], DtypeMark))
  }

  /** What one line adds to the column list. */
  function EntriesOf(line: string): (r: seq<string>)
    ensures |r| <= 1
    ensures r != [] <==> StartsWith(line, Bullet)
  {
    if StartsWith(line, Bullet) then [EntryOf(line)] else []
  }

  /** What `read` takes from each line, concatenated in line order. */
  function Gather(lines: seq<string>, read: string -> seq<string>): seq<string> {
    if lines == [] then []
    else Gather(lines[..|lines| - 1], read) + read(lines[|lines| - 1])
  }

  /** The column list read from a sequence of lines, in line order. */
  function SchemaEntries(lines: seq<string>): (r: seq<string>)
    ensures |r| <= |lines|
    ensures forall k :: 0 <= k < |r| ==> Trimmed(r[k])
  {
    EntriesBounded(lines);
    Gather(lines, EntriesOf)
  }

  lemma {:induction false} EntriesBounded(lines: seq<string>)
    ensures |Gather(lines, EntriesOf)| <= |lines|
    ensures forall k :: 0 <= k < |Gather(lines, EntriesOf)| ==> Trimmed(Gather(lines, EntriesOf)[k])
  {
    if lines != [] {
      var n := |lines|;
      EntriesBounded(lines[..n - 1]);
      var g, e := Gather(lines[..n - 1], EntriesOf), EntriesOf(lines[n - 1]);
      assert Gather(lines, EntriesOf) == g + e;
      forall k | 0 <= k < |g + e|
        ensures Trimmed((g + e)[k])
      {
        if k < |g| {
          assert (g + e)[k] == g[k];
        } else {
          assert (g + e)[k] == e[k - |g|];
        }
      }
    }
  }

  /** The columns read from a description that may be missing. */
  function KnownCols(schema: Option<string>): seq<string> {
    SchemaEntries(SplitLines(schema.GetOr("")))
  }

  /** `_schema_cols(schema_md)`: a `None` or empty description gives no columns. */
  method SchemaCols(schema: Option<string>) returns (cols: seq<string>)
    ensures cols == KnownCols(schema)
    ensures schema.None? ==> cols == []
  {
    var lines := SplitLines(schema.GetOr(""));
    cols := [];
    var i := 0;
    while i < |lines|
      invariant 0 <= i <= |lines|
      invariant cols == SchemaEntries(lines[..i])
    {
      var line := lines[i];
      if StartsWith(line, Bullet) {
        cols := cols + [EntryOf(line)];
      }
      SchemaEntriesStep(lines, i);
      i := i + 1;
    }
    assert lines[..i] == lines;
  }

  lemma SchemaEntriesStep(lines: seq<string>, i: int)
    requires 0 <= i < |lines|
    ensures SchemaEntries(lines[..i + 1]) == SchemaEntries(lines[..i]) + EntriesOf(lines[i])
  {
    GatherStep(lines, i, EntriesOf);
  }

  lemma GatherStep(lines: seq<string>, i: int, read: string -> seq<string>)
    requires 0 <= i < |lines|
    ensures Gather(lines[..i + 1], read) == Gather(lines[..i], read) + read(lines[i])
  {
    assert lines[..i + 1][..i] == lines[..i];
  }

  // ---------------------------------------------------------------- properties

  /** Reading the lines of two texts one after the other gives both lists in turn. */
  lemma SchemaEntriesAppend(a: seq<string>, b: seq<string>)
    ensures SchemaEntries(a + b) == SchemaEntries(a) + SchemaEntries(b)
  {
    GatherAppend(a, b, EntriesOf);
  }

  lemma {:induction false} GatherAppend(a: seq<string>, b: seq<string>, read: string -> seq<string>)
    ensures Gather(a + b, read) == Gather(a, read) + Gather(b, read)
    decreases |b|
  {
    if b == [] {
      assert a + b == a;
    } else {
      var n := |b|;
      assert (a + b)[..|a + b| - 1] == a + b[..n - 1];
      GatherAppend(a, b[..n - 1], read);
    }
  }

  /** Printable ASCII text without an opening parenthesis. */
  predicate Plain(s: string) {
    forall i :: 0 <= i < |s| ==> ' ' <= s[i] <= '~' && s[i] != '('
  }

  lemma PlainAppend(a: string, b: string)
    requires Plain(a) && Plain(b)
    ensures Plain(a + b)
  {
    assert forall i :: 0 <= i < |a| ==> (a + b)[i] == a[i];
    assert forall i :: |a| <= i < |a + b| ==> (a + b)[i] == b[i - |a|];
  }

  lemma PlainIsUnbroken(s: string)
    requires Plain(s)
    ensures NoLineBreak(s) && !Contains(s, DtypeMark)
  {
    forall i | 0 <= i <= |s|
      ensures !OccursAt(s, DtypeMark, i)
    {
      if i + |DtypeMark| <= |s| {
        assert s[i..i + |DtypeMark|][1] == s[i + 1] != '(';
      }
    }
  }

  lemma NotesArePlain()
    ensures Plain(Heading) && Plain(NotesHeading)
    ensures Plain(DateNote) && Plain(AmountNote) && Plain(StatusNote)
  {
    HeadingsPlain();
    DateNotePlain();
    AmountNotePlain();
    StatusNotePlain();
  }

  lemma HeadingsPlain()
    ensures Plain(Heading) && Plain(NotesHeading)
  {
    PlainAppend("Dataset", " columns:");
  }

  lemma DateNotePlain()
    ensures Plain(DateNote)
  {
    PlainAppend("Date column", " is MM-DD-YY.");
  }

  lemma AmountNotePlain()
    ensures Plain(AmountNote)
  {
    assert Plain("Use Amount") && Plain(" as sales value");
    PlainAppend("Use Amount", " as sales value");
    assert Plain(" and Qty as units.");
    PlainAppend("Use Amount" + " as sales value", " and Qty as units.");
  }

  lemma StatusNotePlain()
    ensures Plain(StatusNote)
  {
    assert Plain("Status indicates") && Plain(" shipped/cancelled");
    PlainAppend("Status indicates", " shipped/cancelled");
    assert Plain("/returned states.");
    PlainAppend("Status indicates" + " shipped/cancelled", "/returned states.");
  }

  /**
   * The first " (dtype=" in `x + " (dtype=" + rest` is the one after `x` when
   * `x` holds none: no suffix of `x` can start an occurrence, because the
   * mark's only space is its first character.
   */
  lemma BeforeMark(x: string, rest: string)
    requires !Contains(x, DtypeMark)
    ensures BeforeFirst(x + DtypeMark + rest, DtypeMark) == x
  {
    var s := x + DtypeMark + rest;
    var i := Find(s, DtypeMark);
    assert OccursAt(s, DtypeMark, |x|) by {
      assert s[|x|..|x| + |DtypeMark|] == DtypeMark;
    }
    if i < |x| {
      assert OccursAt(s, DtypeMark, i);
      if i + |DtypeMark| <= |x| {
        assert x[i..i + |DtypeMark|] == s[i..i + |DtypeMark|];
        assert OccursAt(x, DtypeMark, i);
      } else {
        NoStraddle(x, rest, i);
      }
    }
    assert s[..|x|] == x;
  }

  /** An occurrence of the mark cannot begin inside `x` and end inside the mark after it. */
  lemma NoStraddle(x: string, rest: string, i: int)
    requires 0 <= i < |x| < i + |DtypeMark|
    ensures !OccursAt(x + DtypeMark + rest, DtypeMark, i)
  {
    var s := x + DtypeMark + rest;
    var k := |x| - i;
    assert s[i..i + |DtypeMark|][k] == s[|x|] == ' ';
    assert DtypeMark[k] != ' ';
  }

  /** Names the description can carry back unchanged. */
  predicate Readable(c: Column) {
    Trimmed(c.name) && !Contains(c.name, DtypeMark) && NoLineBreak(c.name) && NoLineBreak(c.dtype)
  }

  /** A column line reads back as the column's name. */
  lemma EntryOfColumnLine(c: Column)
    requires Readable(c)
    ensures EntryOf(ColumnLine(c)) == c.name
  {
    assert ColumnLine(c)[2..] == c.name + DtypeMark + (c.dtype + ")");
    BeforeMark(c.name, c.dtype + ")");
    StripKeepsTrimmed(c.name);
  }

  /** A bullet note reads back as its text. */
  lemma EntryOfNote(note: string)
    requires Plain(note) && note != [] && note[0] != ' ' && note[|note| - 1] != ' '
    ensures EntryOf(Bullet + note) == note
  {
    PlainIsUnbroken(note);
    assert (Bullet + note)[2..] == note;
    assert Trimmed(note);
    StripKeepsTrimmed(note);
  }

  lemma ColumnsPrefix(cols: seq<Column>)
    requires cols != []
    ensures ColumnLines(cols)[..|cols| - 1] == ColumnLines(cols[..|cols| - 1])
    ensures Names(cols) == Names(cols[..|cols| - 1]) + [cols[|cols| - 1].name]
  {
  }

  lemma {:induction false} ColumnEntries(cols: seq<Column>)
    requires forall k :: 0 <= k < |cols| ==> Readable(cols[k])
    ensures SchemaEntries(ColumnLines(cols)) == Names(cols)
    decreases |cols|
  {
    if cols != [] {
      var n := |cols|;
      var lines := ColumnLines(cols);
      ColumnEntries(cols[..n - 1]);
      ColumnsPrefix(cols);
      assert EntriesOf(lines[n - 1]) == [cols[n - 1].name] by {
        EntryOfColumnLine(cols[n - 1]);
      }
      assert SchemaEntries(lines) == SchemaEntries(lines[..n - 1]) + EntriesOf(lines[n - 1]);
    }
  }

  lemma GatherFive(l: seq<string>, read: string -> seq<string>)
    requires |l| == 5
    ensures Gather(l, read) == read(l[0]) + read(l[1]) + read(l[2]) + read(l[3]) + read(l[4])
  {
    assert l[..0] == [];
    GatherStep(l, 0, read);
    GatherStep(l, 1, read);
    GatherStep(l, 2, read);
    GatherStep(l, 3, read);
    GatherStep(l, 4, read);
    assert l[..5] == l;
  }

  lemma NoteLinesEntries()
    ensures SchemaEntries(NoteLines) == NoteEntries
  {
    NotesArePlain();
    assert EntriesOf(NotesHeading) == [] by {
      assert NotesHeading[..2] != Bullet by {
        assert NotesHeading[0] == 'N';
      }
    }
    EntryOfNote(DateNote);
    EntryOfNote(AmountNote);
    EntryOfNote(StatusNote);
    GatherFive(NoteLines, EntriesOf);
  }

  lemma ColumnLineUnbroken(c: Column)
    requires NoLineBreak(c.name) && NoLineBreak(c.dtype)
    ensures NoLineBreak(ColumnLine(c))
  {
    var l := ColumnLine(c);
    forall i | 0 <= i < |l|
      ensures !IsLineBreak(l[i])
    {
      if 2 <= i < 2 + |c.name| {
        assert l[i] == c.name[i - 2];
      } else if 2 + |c.name| + |DtypeMark| <= i < |l| - 1 {
        assert l[i] == c.dtype[i - 2 - |c.name| - |DtypeMark|];
      }
    }
  }

  lemma SchemaLinesUnbroken(cols: seq<Column>)
    requires forall k :: 0 <= k < |cols| ==> Readable(cols[k])
    ensures forall k :: 0 <= k < |SchemaLines(cols)| ==> NoLineBreak(SchemaLines(cols)[k])
  {
    var lines := SchemaLines(cols);
    NotesArePlain();
    PlainIsUnbroken(Heading);
    PlainIsUnbroken(NotesHeading);
    PlainAppend(Bullet, DateNote);
    PlainAppend(Bullet, AmountNote);
    PlainAppend(Bullet, StatusNote);
    PlainIsUnbroken(Bullet + DateNote);
    PlainIsUnbroken(Bullet + AmountNote);
    PlainIsUnbroken(Bullet + StatusNote);
    forall k | 0 <= k < |lines|
      ensures NoLineBreak(lines[k])
    {
      if 1 <= k <= |cols| {
        assert lines[k] == ColumnLines(cols)[k - 1];
        ColumnLineUnbroken(cols[k - 1]);
      } else if k > |cols| {
        assert lines[k] == NoteLines[k - |cols| - 1];
      }
    }
  }

  /** Splitting the description gives its lines back. */
  lemma MetadataLines(cols: seq<Column>)
    requires forall k :: 0 <= k < |cols| ==> Readable(cols[k])
    ensures SplitLines(GetSchemaMetadata(cols)) == SchemaLines(cols)
  {
    var lines := SchemaLines(cols);
    SchemaLinesUnbroken(cols);
    assert lines[|lines| - 1] == Bullet + StatusNote != [];
    SplitJoinedLines(lines);
  }

  lemma EntriesOfThree(h: string, c: seq<string>, n: seq<string>)
    requires !StartsWith(h, Bullet)
    ensures SchemaEntries([h] + c + n) == SchemaEntries(c) + SchemaEntries(n)
  {
    assert SchemaEntries([h]) == [] by {
      SchemaEntriesStep([h], 0);
      assert [h][..0] == [] && [h][..1] == [h];
    }
    var hc := [h] + c;
    SchemaEntriesAppend([h], c);
    assert SchemaEntries(hc) == SchemaEntries(c);
    SchemaEntriesAppend(hc, n);
  }

  /** The description's lines read back as the names followed by the notes. */
  lemma LinesEntries(cols: seq<Column>)
    requires forall k :: 0 <= k < |cols| ==> Readable(cols[k])
    ensures SchemaEntries(SchemaLines(cols)) == Names(cols) + NoteEntries
  {
    assert !StartsWith(Heading, Bullet) by {
      assert Heading[0] == 'D';
    }
    EntriesOfThree(Heading, ColumnLines(cols), NoteLines);
    ColumnEntries(cols);
    NoteLinesEntries();
  }

  /**
   * Reading the columns back from a description gives every column name, in
   * order, followed by the three note texts, whenever the names carry no
   * surrounding whitespace, no " (dtype=" and no line boundary.
   */
  lemma SchemaRoundTrip(cols: seq<Column>)
    requires forall k :: 0 <= k < |cols| ==> Readable(cols[k])
    ensures SchemaEntries(SplitLines(GetSchemaMetadata(cols))) == Names(cols) + NoteEntries
  {
    MetadataLines(cols);
    LinesEntries(cols);
  }
}
