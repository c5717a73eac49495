/**
 * The CSV writers (src/runner.cpp, src/monitoring.cpp) and the row reader (src/monitoring.cpp), after RFC 4180,
 * section 2, rules 5 to 7.
 */
module Csv {
  import opened Common

  function Doubled(value: string): string {
    if value == "" then ""
    else (if value[0] == '"' then "\"\"" else [value[0]]) + Doubled(value[1..])
  }

  function Field(value: string): string {
    "\"" + Doubled(value) + "\""
  }

  /** One row as the report writers emit it: absent optional values leave their column empty. */
  function Column(value: Option<string>): string {
    match value
    case Some(text) => Field(text)
    case None => ""
  }

  function RowTail(columns: seq<Option<string>>): string {
    if columns == [] then "" else "," + Column(columns[0]) + RowTail(columns[1..])
  }

  function Row(columns: seq<Option<string>>): string {
    if columns == [] then "" else Column(columns[0]) + RowTail(columns[1..])
  }

  /** The escaping routine of the benchmark runner. */
  method EscapeField(value: string) returns (escaped: string)
    ensures escaped == Field(value)
  {
    escaped := "\"";
    for i := 0 to |value|
      invariant escaped + Doubled(value[i..]) == "\"" + Doubled(value)
    {
      assert value[i..][1..] == value[i + 1..];
      ghost var before, rest := escaped, Doubled(value[i + 1..]);
      escaped := escaped + [value[i]];
      if value[i] == '"' {
        escaped := escaped + "\"";
        assert before + ("\"\"" + rest) == escaped + rest;
      } else {
        assert before + ([value[i]] + rest) == escaped + rest;
      }
    }
    escaped := escaped + "\"";
  }

  /** The escaping stream writer of the analyzer. */
  method WriteCsvValue(output: string, value: string) returns (written: string)
    ensures written == output + Field(value)
  {
    written := output + "\"";
    for i := 0 to |value|
      invariant written + Doubled(value[i..]) == output + "\"" + Doubled(value)
    {
      assert value[i..][1..] == value[i + 1..];
      ghost var before, rest := written, Doubled(value[i + 1..]);
      if value[i] == '"' {
        written := written + "\"";
      }
      written := written + [value[i]];
      assert before + ((if value[i] == '"' then "\"\"" else [value[i]]) + rest) == written + rest;
    }
    assert written == output + "\"" + Doubled(value);
    written := written + "\"";
    assert output + "\"" + Doubled(value) + "\"" == output + ("\"" + Doubled(value) + "\"");
  }

  /** Appends a column, preceded by a comma unless it is the first one; an absent value writes nothing. */
  method WriteColumn(output: string, value: Option<string>, first: bool) returns (written: string)
    ensures written == output + (if first then "" else ",") + Column(value)
  {
    written := output;
    if !first {
      written := written + ",";
    }
    if value.Some? {
      written := WriteCsvValue(written, value.value);
    }
  }

  method WriteRow(columns: seq<Option<string>>) returns (line: string)
    ensures line == Row(columns)
  {
    line := "";
    for i := 0 to |columns|
      invariant line == Row(columns[..i])
    {
      RowAppend(columns[..i], columns[i]);
      assert columns[..i + 1] == columns[..i] + [columns[i]];
      line := WriteColumn(line, columns[i], i == 0);
    }
    assert columns[..|columns|] == columns;
  }

  lemma {:induction false} TailAppend(columns: seq<Option<string>>, value: Option<string>)
    ensures RowTail(columns + [value]) == RowTail(columns) + "," + Column(value)
  {
    hide Column;
    if columns == [] {
      assert columns + [value] == [value] && RowTail([]) == "";
      assert [value][1..] == [];
    } else {
      TailAppend(columns[1..], value);
      assert (columns + [value])[1..] == columns[1..] + [value];
      Regroup("," + Column(columns[0]), RowTail(columns[1..]), ",", Column(value));
    }
  }

  lemma Regroup(a: string, b: string, c: string, d: string)
    ensures a + (b + c + d) == a + b + c + d
  {
  }

  lemma RowAppend(columns: seq<Option<string>>, value: Option<string>)
    ensures Row(columns + [value]) == Row(columns) + (if columns == [] then "" else ",") + Column(value)
  {
    hide Column, RowTail;
    if columns == [] {
      assert columns + [value] == [value] && [value][1..] == [];
      NoTail("");
      assert Column(value) + "" == Column(value) == "" + "" + Column(value);
    } else {
      TailAppend(columns[1..], value);
      assert (columns + [value])[1..] == columns[1..] + [value];
      Regroup(Column(columns[0]), RowTail(columns[1..]), ",", Column(value));
    }
  }

  function Quotes(value: string): nat {
    if value == "" then 0 else (if value[0] == '"' then 1 else 0) + Quotes(value[1..])
  }

  lemma {:induction false} DoubledLength(value: string)
    ensures |Doubled(value)| == |value| + Quotes(value)
  {
    if value != "" {
      DoubledLength(value[1..]);
    }
  }

  /** Every field is quoted, whatever it holds, and only its inner quotes take more room. */
  lemma FieldShape(value: string)
    ensures
      var field := Field(value);
      && |field| == |value| + Quotes(value) + 2
      && field[0] == '"' && field[|field| - 1] == '"'
      && (Quotes(value) == 0 ==> field[1..|field| - 1] == value)
  {
    DoubledLength(value);
    if Quotes(value) == 0 {
      PlainDoubled(value);
      assert Field(value)[1..|Field(value)| - 1] == Doubled(value);
    }
  }

  lemma {:induction false} PlainDoubled(value: string)
    requires Quotes(value) == 0
    ensures Doubled(value) == value
  {
    if value != "" {
      PlainDoubled(value[1..]);
    }
  }

  /** What the reader makes of the rest of a line, given the value collected so far. */
  function Parse(line: string, quoted: bool, value: string): seq<string>
    decreases |line|
  {
    if line == "" then [value]
    else if quoted then
      if line[0] == '"' && |line| > 1 && line[1] == '"' then Parse(line[2..], true, value + "\"")
      else if line[0] == '"' then Parse(line[1..], false, value)
      else Parse(line[1..], true, value + [line[0]])
    else if line[0] == '"' then Parse(line[1..], true, value)
    else if line[0] == ',' then [value] + Parse(line[1..], false, "")
    else if line[0] != '\r' then Parse(line[1..], false, value + [line[0]])
    else Parse(line[1..], false, value)
  }

  method ParseCsvRow(line: string) returns (result: seq<string>)
    ensures result == Parse(line, false, "")
  {
    result := [];
    var value := "";
    var quoted := false;
    var i := 0;
    while i < |line|
      invariant i <= |line|
      invariant result + Parse(line[i..], quoted, value) == Parse(line, false, "")
    {
      var character := line[i];
      assert line[i..][1..] == line[i + 1..];
      if quoted {
        if character == '"' && i + 1 < |line| && line[i + 1] == '"' {
          assert line[i..][2..] == line[i + 2..];
          value := value + "\"";
          i := i + 1;
        } else if character == '"' {
          quoted := false;
        } else {
          value := value + [character];
        }
      } else if character == '"' {
        quoted := true;
      } else if character == ',' {
        assert result + ([value] + Parse(line[i + 1..], false, "")) == result + [value] + Parse(line[i + 1..], false, "");
        result := result + [value];
        value := "";
      } else if character != '\r' {
        value := value + [character];
      }
      i := i + 1;
    }
    result := result + [value];
  }

  lemma {:induction false} DoubledReadsBack(text: string, value: string, tail: string, s: string)
    requires tail == "" || tail[0] != '"'
    requires s == Doubled(text) + ("\"" + tail)
    ensures Parse(s, true, value) == Parse(tail, false, value + text)
    decreases |text|
  {
    if text == "" {
      assert s[1..] == tail && value + text == value;
    } else {
      var written := if text[0] == '"' then "\"\"" else [text[0]];
      var rest := Doubled(text[1..]) + ("\"" + tail);
      assert s == written + rest;
      assert s[|written|..] == rest;
      DoubledReadsBack(text[1..], value + [text[0]], tail, rest);
      assert value + [text[0]] + text[1..] == value + text;
    }
  }

  lemma ColumnReadsBack(value: Option<string>, tail: string)
    requires tail == "" || tail[0] == ','
    ensures Parse(Column(value) + tail, false, "") == Parse(tail, false, value.GetOr(""))
  {
    if value.Some? {
      var s := Field(value.value) + tail;
      assert s[1..] == Doubled(value.value) + ("\"" + tail);
      DoubledReadsBack(value.value, "", tail, s[1..]);
      assert "" + value.value == value.value;
    } else {
      assert "" + tail == tail;
    }
  }

  function Texts(columns: seq<Option<string>>): seq<string> {
    seq(|columns|, i requires 0 <= i < |columns| => columns[i].GetOr(""))
  }

  lemma SeparatorReads(s: string, rest: string, value: string)
    requires s == "," + rest
    ensures Parse(s, false, value) == [value] + Parse(rest, false, "")
  {
    assert s[1..] == rest;
  }

  lemma TailUnfolds(columns: seq<Option<string>>)
    requires columns != []
    ensures RowTail(columns) == "," + (Column(columns[0]) + RowTail(columns[1..]))
  {
    hide Column;
    assert "," + Column(columns[0]) + RowTail(columns[1..]) == "," + (Column(columns[0]) + RowTail(columns[1..]));
  }

  lemma TailStarts(columns: seq<Option<string>>)
    ensures RowTail(columns) == "" || RowTail(columns)[0] == ','
  {
    hide Column;
  }

  lemma TextsUnfold(columns: seq<Option<string>>)
    ensures columns != [] ==> Texts(columns) == [columns[0].GetOr("")] + Texts(columns[1..])
    ensures columns == [] ==> Texts(columns) == []
  {
  }

  lemma NoTail(value: string)
    ensures RowTail([]) == "" && Parse("", false, value) == [value]
  {
  }

  lemma {:induction false} TailReadsBack(columns: seq<Option<string>>, value: string)
    ensures Parse(RowTail(columns), false, value) == [value] + Texts(columns)
  {
    hide Parse, Column, RowTail, Texts;
    TextsUnfold(columns);
    if columns == [] {
      NoTail(value);
    } else {
      var tail := RowTail(columns[1..]);
      TailUnfolds(columns);
      TailStarts(columns[1..]);
      SeparatorReads(RowTail(columns), Column(columns[0]) + tail, value);
      ColumnReadsBack(columns[0], tail);
      TailReadsBack(columns[1..], columns[0].GetOr(""));
    }
  }

  // Lines without quotes.

  function WithoutReturns(line: string): string {
    if line == "" then "" else (if line[0] == '\r' then "" else [line[0]]) + WithoutReturns(line[1..])
  }

  function Joined(columns: seq<string>): string {
    if columns == [] then ""
    else if |columns| == 1 then columns[0]
    else columns[0] + "," + Joined(columns[1..])
  }

  /** A line without quotes is split at exactly its commas, and loses exactly its carriage returns. */
  lemma {:induction false} PlainLine(line: string, value: string)
    requires Quotes(line) == 0 && ',' !in value
    ensures
      var columns := Parse(line, false, value);
      && columns != [] && Joined(columns) == value + WithoutReturns(line)
      && forall i :: 0 <= i < |columns| ==> ',' !in columns[i]
    decreases |line|
  {
    if line != "" {
      if line[0] == ',' {
        var rest := Parse(line[1..], false, "");
        PlainLine(line[1..], "");
        assert ([value] + rest)[1..] == rest;
        assert value + "," + ("" + WithoutReturns(line[1..])) == value + ("," + WithoutReturns(line[1..]));
      } else if line[0] == '\r' {
        PlainLine(line[1..], value);
      } else {
        PlainLine(line[1..], value + [line[0]]);
        assert value + [line[0]] + WithoutReturns(line[1..]) == value + ([line[0]] + WithoutReturns(line[1..]));
      }
    }
  }

  /** The cells of a row: a quoted field for every value, and nothing at all for an absent one. */
  function Cells(columns: seq<Option<string>>): seq<string> {
    seq(|columns|, i requires 0 <= i < |columns| => if columns[i].Some? then Field(columns[i].value) else "")
  }

  /** A row is its cells, separated by commas. */
  lemma {:induction false} RowJoins(columns: seq<Option<string>>)
    ensures Row(columns) == Joined(Cells(columns))
  {
    hide Field;
    if |columns| > 1 {
      RowJoins(columns[1..]);
      assert Cells(columns)[1..] == Cells(columns[1..]);
      TailUnfolds(columns[1..]);
      assert Column(columns[0]) + ("," + Row(columns[1..])) == Column(columns[0]) + "," + Row(columns[1..]);
    } else if |columns| == 1 {
      assert columns[1..] == [];
    }
  }

  /** A written row reads back column by column exactly when it has a column; an absent value reads as empty. */
  lemma RowRoundTrip(columns: seq<Option<string>>)
    ensures Parse(Row(columns), false, "") == Texts(columns) <==> columns != []
  {
    hide Parse, Column, RowTail, Texts;
    TextsUnfold(columns);
    if columns != [] {
      TailStarts(columns[1..]);
      ColumnReadsBack(columns[0], RowTail(columns[1..]));
      TailReadsBack(columns[1..], columns[0].GetOr(""));
    } else {
      NoTail("");
    }
  }
}
