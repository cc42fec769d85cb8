/** The CSV export of the reports screen (components/Reports.tsx): the text
    built from the rows of a table and the download file name. A row is its
    columns in property order, each with the template-literal text of its
    value. */
module Reports {
  import opened Optional
  import opened Text

  /** One fetched row: (column name, value text) pairs in property order. */
  type Row = seq<(string, string)>

  const CsvPrefix: string := "data:text/csv;charset=utf-8,"

  /** `Object.keys(row)`. */
  function Keys(row: Row): (r: seq<string>)
    ensures |r| == |row|
    ensures forall i :: 0 <= i < |row| ==> r[i] == row[i].0
  {
    seq(|row|, i requires 0 <= i < |row| => row[i].0)
  }

  /** A value wrapped in double quotes, with nothing inside escaped. */
  function Quote(v: string): (r: string)
    ensures |r| == |v| + 2 && r[0] == '"' && r[|r| - 1] == '"'
    ensures r[1..|r| - 1] == v
  {
    "\"" + v + "\""
  }

  /** The text inside a quoted field. */
  function Unquote(f: string): string {
    if |f| >= 2 then f[1..|f| - 1] else f
  }

  /** `Object.values(row).map(v => `"${v}"`)`. */
  function QuotedValues(row: Row): (r: seq<string>)
    ensures |r| == |row|
    ensures forall i :: 0 <= i < |row| ==> r[i] == Quote(row[i].1)
    ensures forall i :: 0 <= i < |row| ==> Unquote(r[i]) == row[i].1
  {
    seq(|row|, i requires 0 <= i < |row| => Quote(row[i].1))
  }

  /** One data line: the quoted values joined by commas. */
  function Line(row: Row): string {
    Join(QuotedValues(row), ",")
  }

  /** The CSV text: nothing for an empty table; otherwise the prefix, the
      first row's column names joined by commas, a newline, and the data
      lines joined by newlines with no trailing newline. */
  function CsvContent(data: seq<Row>): (r: Option<string>)
    ensures r.None? <==> |data| == 0
    ensures r.Some? ==> StartsWith(r.value, CsvPrefix)
  {
    if |data| == 0 then None
    else
      var lines := seq(|data|, i requires 0 <= i < |data| => Line(data[i]));
      var text := CsvPrefix + Join(Keys(data[0]), ",") + "\n" + Join(lines, "\n");
      assert text[..|CsvPrefix|] == CsvPrefix;
      Some(text)
  }

  /** No column name or value holds a newline. */
  predicate NoNewlines(data: seq<Row>) {
    forall i, j :: 0 <= i < |data| && 0 <= j < |data[i]| ==> '\n' !in data[i][j].0 && '\n' !in data[i][j].1
  }

  /** A comma-separated join of newline-free parts holds no newline. */
  lemma {:induction false} JoinKeepsOut(parts: seq<string>, sep: string, c: char)
    requires c !in sep
    requires forall i :: 0 <= i < |parts| ==> c !in parts[i]
    ensures c !in Join(parts, sep)
    decreases |parts|
  {
    if |parts| > 1 {
      JoinKeepsOut(parts[1..], sep, c);
    }
  }

  /** A data line holds no newline when its values hold none. */
  lemma LineHasNoNewline(row: Row)
    requires forall j :: 0 <= j < |row| ==> '\n' !in row[j].1
    ensures '\n' !in Line(row)
  {
    var q := QuotedValues(row);
    forall j | 0 <= j < |q|
      ensures '\n' !in q[j]
    {
      assert q[j] == "\"" + row[j].1 + "\"";
    }
    JoinKeepsOut(q, ",", '\n');
  }

  /** Without newlines in names or values, the text after the prefix splits
      at newlines into exactly the header line and one line per row, so it
      has one line more than the table has rows. */
  lemma CsvLines(data: seq<Row>)
    requires |data| > 0 && NoNewlines(data)
    ensures var text := CsvContent(data).value[|CsvPrefix|..];
      && Split(text, '\n') == [Join(Keys(data[0]), ",")] + seq(|data|, i requires 0 <= i < |data| => Line(data[i]))
      && |Split(text, '\n')| == |data| + 1
  {
    var header := Join(Keys(data[0]), ",");
    var lines := seq(|data|, i requires 0 <= i < |data| => Line(data[i]));
    var parts := [header] + lines;
    JoinKeepsOut(Keys(data[0]), ",", '\n');
    forall i | 0 <= i < |data|
      ensures '\n' !in lines[i]
    {
      LineHasNoNewline(data[i]);
    }
    assert parts[1..] == lines;
    assert Join(parts, "\n") == header + "\n" + Join(lines, "\n");
    assert CsvContent(data).value[|CsvPrefix|..] == Join(parts, "\n");
    SplitJoin(parts, '\n');
  }

  /** A line of values free of commas splits back into its quoted values,
      and unquoting each gives the row's values. */
  lemma LineRoundTrip(row: Row)
    requires |row| > 0
    requires forall j :: 0 <= j < |row| ==> ',' !in row[j].1
    ensures Split(Line(row), ',') == QuotedValues(row)
    ensures forall j :: 0 <= j < |row| ==> Unquote(Split(Line(row), ',')[j]) == row[j].1
  {
    var q := QuotedValues(row);
    forall j | 0 <= j < |q|
      ensures ',' !in q[j]
    {
      assert q[j] == "\"" + row[j].1 + "\"";
    }
    SplitJoin(q, ',');
  }

  /** Values are not escaped: a comma inside a value makes the line split
      into fields that are not the quoted values. */
  lemma CommaInValueBreaksLine(row: Row, j: nat)
    requires j < |row| && ',' in row[j].1
    ensures Split(Line(row), ',') != QuotedValues(row)
  {
    var q := QuotedValues(row);
    assert q[j] == "\"" + row[j].1 + "\"";
    assert ',' in q[j];
  }

  /** The download name: `<name>_<date>.csv`, the date taken from the
      injected ISO timestamp of "now". */
  function Filename(name: string, nowIso: string): (r: string)
    ensures StartsWith(r, name + "_")
    ensures |r| >= |name| + 5 && r[|r| - 4..] == ".csv"
  {
    var r := name + "_" + DatePart(nowIso) + ".csv";
    assert r[..|name| + 1] == name + "_";
    r
  }

  /** The date in the name is the calendar day of the timestamp. */
  lemma FilenameDate(name: string, day: string, time: string)
    requires 'T' !in day
    ensures Filename(name, day + "T" + time) == name + "_" + day + ".csv"
  {
    DatePartOfTimestamp(day, time);
  }
}
