/** The result formatter (`processAthenaResults`): the rows of an Athena result
    set become a text block whose first line is a `* | a | b |` header and whose
    later lines are `  + a: b requests` bullets. */
module Formatter {
  import opened Outcomes
  import opened Text

  /** One row of a result set: its cells' `VarCharValue`s, in column order. */
  type Row = seq<string>

  /** The formatter reads cells 0 and 1 of every row; a shorter row makes Go's
      index expression panic. */
  predicate Readable(row: Row) {
    |row| >= 2
  }

  predicate AllReadable(rows: seq<Row>) {
    forall i :: 0 <= i < |rows| ==> Readable(rows[i])
  }

  /** Neither of the two cells the formatter reads holds a newline. */
  predicate SingleLine(row: Row)
    requires Readable(row)
  {
    '\n' !in row[0] && '\n' !in row[1]
  }

  /** The text of the header line made from the first row, without its newline. */
  function HeaderText(row: Row): string
    requires Readable(row)
  {
    "* | " + row[0] + " | " + row[1] + " |"
  }

  /** The text of the bullet line made from any later row, without its newline. */
  function BulletText(row: Row): string
    requires Readable(row)
  {
    "  + " + row[0] + ": " + row[1] + " requests"
  }

  /** The line that the row at position `idx` turns into. */
  function RowText(idx: nat, row: Row): string
    requires Readable(row)
  {
    if idx == 0 then HeaderText(row) else BulletText(row)
  }

  /** The bullet lines for `rows`, in order. */
  function Bullets(rows: seq<Row>): string
    requires AllReadable(rows)
  {
    if rows == [] then "" else BulletText(rows[0]) + "\n" + Bullets(rows[1..])
  }

  /** The text block for a whole result set: nothing for no rows, else the
      header line for row 0 and a bullet line for each row after it. */
  function FormatRows(rows: seq<Row>): string
    requires AllReadable(rows)
  {
    if rows == [] then "" else HeaderText(rows[0]) + "\n" + Bullets(rows[1..])
  }

  /** The result of `processAthenaResults` once `GetQueryResults` has answered:
      its error unchanged, or the formatted rows. */
  function ProcessedResults(fetched: Result<seq<Row>>): Result<string>
    requires fetched.Success? ==> AllReadable(fetched.value)
  {
    match fetched
    case Failure(e) => Failure(e)
    case Success(rows) => Success(FormatRows(rows))
  }

  /** `processAthenaResults` after the SDK call: an SDK error is returned as it
      is; otherwise the rows are walked in order, row 0 setting the text to the
      header line and every later row appending its bullet line. */
  method ProcessAthenaResults(fetched: Result<seq<Row>>) returns (r: Result<string>)
    requires fetched.Success? ==> AllReadable(fetched.value)
    ensures r == ProcessedResults(fetched)
    ensures fetched.Failure? ==> r == Failure(fetched.error)
  {
    if fetched.Failure? {
      return Failure(fetched.error);
    }
    var rows := fetched.value;
    var text := "";
    for idx := 0 to |rows|
      invariant text == FormatRows(rows[..idx])
    {
      var row := rows[idx];
      AppendRow(rows[..idx], row);
      assert rows[..idx + 1] == rows[..idx] + [row];
      if idx == 0 {
        text := HeaderText(row) + "\n";
        continue;
      }
      text := text + BulletText(row) + "\n";
    }
    assert rows[..|rows|] == rows;
    return Success(text);
  }

  lemma {:induction false} BulletsAppend(rows: seq<Row>, row: Row)
    requires AllReadable(rows) && Readable(row)
    ensures AllReadable(rows + [row])
    ensures Bullets(rows + [row]) == Bullets(rows) + BulletText(row) + "\n"
  {
    if rows == [] {
      assert [row][1..] == [];
    } else {
      assert (rows + [row])[0] == rows[0];
      assert (rows + [row])[1..] == rows[1..] + [row];
      BulletsAppend(rows[1..], row);
    }
  }

  /** Formatting one more row keeps the text built so far as a prefix and
      appends exactly one line: the header line when it is the first row, its
      bullet line otherwise. */
  lemma {:induction false} AppendRow(rows: seq<Row>, row: Row)
    requires AllReadable(rows) && Readable(row)
    ensures AllReadable(rows + [row])
    ensures FormatRows(rows + [row]) ==
      FormatRows(rows) + (if rows == [] then HeaderText(row) else BulletText(row)) + "\n"
  {
    if rows == [] {
      assert [row][1..] == [];
    } else {
      assert (rows + [row])[1..] == rows[1..] + [row];
      BulletsAppend(rows[1..], row);
    }
  }

  /** A result set with no rows formats to the empty text, and one with rows
      starts with the header line made from cells 0 and 1 of row 0. */
  lemma FormatStartsWithHeader(rows: seq<Row>)
    requires AllReadable(rows)
    ensures rows == [] <==> FormatRows(rows) == ""
    ensures rows != [] ==>
      FormatRows(rows)[..|HeaderText(rows[0])| + 1] == "* | " + rows[0][0] + " | " + rows[0][1] + " |\n"
  {
  }

  /** The bullet line texts for `rows`, in order, without their newlines. */
  function BulletTexts(rows: seq<Row>): seq<string>
    requires AllReadable(rows)
  {
    if rows == [] then [] else [BulletText(rows[0])] + BulletTexts(rows[1..])
  }

  lemma {:induction false} BulletTextsAt(rows: seq<Row>)
    requires AllReadable(rows)
    ensures |BulletTexts(rows)| == |rows|
    ensures forall i :: 0 <= i < |rows| ==> BulletTexts(rows)[i] == BulletText(rows[i])
  {
    if rows != [] {
      var tail := rows[1..];
      BulletTextsAt(tail);
      forall i | 1 <= i < |rows| ensures BulletTexts(rows)[i] == BulletText(rows[i]) {
        assert BulletTexts(rows)[i] == BulletTexts(tail)[i - 1];
        assert tail[i - 1] == rows[i];
      }
    }
  }

  lemma {:induction false} BulletLines(rows: seq<Row>)
    requires AllReadable(rows)
    requires forall i :: 0 <= i < |rows| ==> SingleLine(rows[i])
    ensures Lines(Bullets(rows)) == BulletTexts(rows)
  {
    if rows != [] {
      BulletLines(rows[1..]);
      assert '\n' !in BulletText(rows[0]);
      LinesCons(BulletText(rows[0]), Bullets(rows[1..]));
    }
  }

  /** Read back line by line, the formatted text has exactly one line per row,
      in row order: the header line for row 0 and a bullet line for each later
      row (as long as no cell read holds a newline of its own). */
  lemma FormatLines(rows: seq<Row>)
    requires AllReadable(rows)
    requires forall i :: 0 <= i < |rows| ==> SingleLine(rows[i])
    ensures |Lines(FormatRows(rows))| == |rows|
    ensures forall i :: 0 <= i < |rows| ==> Lines(FormatRows(rows))[i] == RowText(i, rows[i])
  {
    if rows != [] {
      var line, tail := HeaderText(rows[0]), rows[1..];
      BulletLines(tail);
      BulletTextsAt(tail);
      assert '\n' !in line;
      LinesCons(line, Bullets(tail));
      var lines := Lines(FormatRows(rows));
      assert lines == [line] + BulletTexts(tail);
      forall i | 1 <= i < |rows| ensures lines[i] == RowText(i, rows[i]) {
        assert lines[i] == BulletTexts(tail)[i - 1];
        assert tail[i - 1] == rows[i];
      }
    }
  }

  lemma {:induction false} BulletsReadTwoCells(rows: seq<Row>, rows': seq<Row>)
    requires AllReadable(rows) && AllReadable(rows') && |rows| == |rows'|
    requires forall i :: 0 <= i < |rows| ==> rows[i][..2] == rows'[i][..2]
    ensures Bullets(rows) == Bullets(rows')
  {
    if rows != [] {
      assert rows[0][0] == rows[0][..2][0] && rows[0][1] == rows[0][..2][1];
      assert rows'[0][0] == rows'[0][..2][0] && rows'[0][1] == rows'[0][..2][1];
      BulletsReadTwoCells(rows[1..], rows'[1..]);
    }
  }

  /** Only cells 0 and 1 of each row reach the text: rows that agree on those
      two cells format identically, whatever further columns they carry. */
  lemma {:induction false} FormatReadsTwoCells(rows: seq<Row>, rows': seq<Row>)
    requires AllReadable(rows) && AllReadable(rows') && |rows| == |rows'|
    requires forall i :: 0 <= i < |rows| ==> rows[i][..2] == rows'[i][..2]
    ensures FormatRows(rows) == FormatRows(rows')
  {
    if rows != [] {
      assert rows[0][0] == rows[0][..2][0] && rows[0][1] == rows[0][..2][1];
      assert rows'[0][0] == rows'[0][..2][0] && rows'[0][1] == rows'[0][..2][1];
      BulletsReadTwoCells(rows[1..], rows'[1..]);
    }
  }

  /** The worked example of a status-code result set with two rows. */
  lemma FormatStatusCodesExample()
    ensures FormatRows([["200", "10"], ["404", "2"]]) == "* | 200 | 10 |\n  + 404: 2 requests\n"
  {
  }
}
