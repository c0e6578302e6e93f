/**
 * Reading an instrument export: the text is split into rows on "\n" and
 * each row into cells on the format's delimiter (no quoting), and a cell is
 * read as a number by `toFloat`.
 */
module FileParse {
  import opened Wrappers
  import opened JsString
  import opened JsNumber

  /**
   * The layout of an export: the cell delimiter, the index of the header
   * row, and the column holding the sample token.
   */
  datatype Format = Format(delimiter: char, headerRow: nat, idColumn: nat)

  /** Comma-separated, headers on the fourth row, sample token in the first column. */
  const CommaFormat: Format := Format(',', 3, 0)

  /** The superseded tab-delimited layout: headers on the first row, sample token in the second column. */
  const TabFormat: Format := Format('\t', 0, 1)

  /** `data.split("\n").map(item => item.split(delimiter))`. */
  function ParseRows(text: string, delimiter: char): (rows: seq<seq<string>>)
    ensures |rows| >= 1
    ensures forall i :: 0 <= i < |rows| ==> |rows[i]| >= 1
  {
    var lines := Split(text, '\n');
    seq(|lines|, i requires 0 <= i < |lines| => Split(lines[i], delimiter))
  }

  /** Cells joined with the delimiter, rows joined with "\n". */
  function JoinRows(rows: seq<seq<string>>, delimiter: char): string {
    Join(seq(|rows|, i requires 0 <= i < |rows| => Join(rows[i], delimiter)), '\n')
  }

  /** Re-joining the parsed cells and rows reproduces the file text exactly. */
  lemma JoinParsedRows(text: string, delimiter: char)
    ensures JoinRows(ParseRows(text, delimiter), delimiter) == text
  {
    var lines := Split(text, '\n');
    var rows := ParseRows(text, delimiter);
    var joined := seq(|rows|, i requires 0 <= i < |rows| => Join(rows[i], delimiter));
    forall i | 0 <= i < |lines| ensures joined[i] == lines[i] {
      JoinSplit(lines[i], delimiter);
    }
    assert joined == lines;
    JoinSplit(text, '\n');
  }

  /** A join of parts free of a character is free of it, unless it is the separator. */
  lemma {:induction false} JoinAvoids(parts: seq<string>, sep: char, c: char)
    requires c != sep
    requires forall k :: 0 <= k < |parts| ==> c !in parts[k]
    ensures c !in Join(parts, sep)
    decreases |parts|
  {
    if |parts| > 1 {
      JoinAvoids(parts[1..], sep, c);
    }
  }

  /**
   * Parsing the joined text of a table gives the table back, provided every
   * row has a cell and no cell holds "\n" or the delimiter.
   */
  lemma ParseJoinedRows(rows: seq<seq<string>>, delimiter: char)
    requires delimiter != '\n'
    requires |rows| >= 1
    requires forall i :: 0 <= i < |rows| ==> |rows[i]| >= 1
    requires forall i, j :: 0 <= i < |rows| && 0 <= j < |rows[i]| ==> '\n' !in rows[i][j] && delimiter !in rows[i][j]
    ensures ParseRows(JoinRows(rows, delimiter), delimiter) == rows
  {
    var joined := seq(|rows|, i requires 0 <= i < |rows| => Join(rows[i], delimiter));
    forall i | 0 <= i < |rows| ensures '\n' !in joined[i] {
      JoinAvoids(rows[i], delimiter, '\n');
    }
    SplitJoin(joined, '\n');
    var parsed := ParseRows(JoinRows(rows, delimiter), delimiter);
    forall i | 0 <= i < |rows| ensures parsed[i] == rows[i] {
      SplitJoin(rows[i], delimiter);
    }
  }

  /** `row[0].replace("\r", "").trim()`: the first carriage return is dropped, then surrounding whitespace. */
  function CleanCell(cell: string): string {
    Trim(ReplaceFirst(cell, "\r", ""))
  }

  /**
   * `toFloat(value, defaultValue)` for a cell: the trimmed text must be
   * non-empty and a finite `Number`, otherwise the default is returned;
   * the value read is `parseFloat` of the trimmed text.
   */
  function ToFloat(value: string, default: real): (r: real)
    ensures Trim(value) == "" ==> r == default
    ensures !NumberOf(value).Finite? ==> r == default
  {
    NumberOfTrim(value);
    var t := Trim(value);
    if !NumberOf(t).Finite? || t == "" then default
    else
      match ParseFloat(t)
      case Finite(x) => x
      case _ => default
  }

  /** `Number` ignores the surrounding whitespace that `toFloat` trims first. */
  lemma NumberOfTrim(value: string)
    ensures NumberOf(Trim(value)) == NumberOf(value)
  {
    TrimIdempotent(value);
  }

  /**
   * The second NaN test in `toFloat` never fires on a string: whatever passes
   * the first test is read as a finite number by `parseFloat`.
   */
  lemma ToFloatReadsFinite(value: string, default: real)
    requires Trim(value) != "" && NumberOf(value).Finite?
    ensures ParseFloat(Trim(value)).Finite?
    ensures ToFloat(value, default) == ParseFloat(Trim(value)).value
  {
    NumberOfTrim(value);
    ParseFloatOfFiniteNumber(value);
  }

  /** `toFloat` reads back the decimal rendering of an integer. */
  lemma ToFloatOfInteger(i: int, default: real)
    ensures ToFloat(IntToString(i), default) == i as real
  {
    var s := IntToString(i);
    IntToStringParts(i);
    NumberOfIntToString(i);
    ParseFloatOfIntToString(i);
  }
}
