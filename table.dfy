/**
 * `MarkdownFormatter.format_table`: a fixed-width Markdown table, one width per column,
 * a header row, a dash separator row and one line per data row.
 */
module Table {
  import opened Text

  const NO_RESOURCES := "_No resources found_\n"

  function Max(a: nat, b: nat): nat {
    if a >= b then a else b
  }

  /** No row has more cells than there are headers (the source indexes `col_widths` by cell position). */
  predicate RowsFit(headers: seq<string>, rows: seq<seq<string>>) {
    forall r :: 0 <= r < |rows| ==> |rows[r]| <= |headers|
  }

  /** Every row has exactly one cell per header, as every per-kind formatter builds them. */
  predicate RowsFull(headers: seq<string>, rows: seq<seq<string>>) {
    forall r :: 0 <= r < |rows| ==> |rows[r]| == |headers|
  }

  /** The width of column `i` after the width loop has seen `rows`. */
  function ColumnWidth(headers: seq<string>, rows: seq<seq<string>>, i: nat): nat
    requires i < |headers|
    decreases |rows|
  {
    if rows == [] then |headers[i]|
    else
      var last := rows[|rows| - 1];
      Max(ColumnWidth(headers, rows[..|rows| - 1], i), if i < |last| then |last[i]| else 0)
  }

  function Widths(headers: seq<string>, rows: seq<seq<string>>): (ws: seq<nat>)
    ensures |ws| == |headers|
  {
    seq(|headers|, i requires 0 <= i < |headers| => ColumnWidth(headers, rows, i))
  }

  /** Each cell left-justified to its column's width. */
  function Padded(cells: seq<string>, widths: seq<nat>): (ps: seq<string>)
    requires |cells| <= |widths|
    ensures |ps| == |cells|
  {
    seq(|cells|, i requires 0 <= i < |cells| => LJust(cells[i], widths[i]))
  }

  /** `"| " + " | ".join(cell.ljust(w) ...) + " |"`, for the header and for every data row. */
  function RowLine(cells: seq<string>, widths: seq<nat>): string
    requires |cells| <= |widths|
  {
    "| " + Join(Padded(cells, widths), " | ") + " |"
  }

  function DashRuns(widths: seq<nat>): (ds: seq<string>)
    ensures |ds| == |widths|
  {
    seq(|widths|, i requires 0 <= i < |widths| => Repeat('-', widths[i]))
  }

  /** `"|-" + "-|-".join("-" * w for w in widths) + "-|"`. */
  function SeparatorLine(widths: seq<nat>): string {
    "|-" + Join(DashRuns(widths), "-|-") + "-|"
  }

  /** The lines of a non-empty table: header, separator, then the data rows in input order. */
  function Lines(headers: seq<string>, rows: seq<seq<string>>): (ls: seq<string>)
    requires RowsFit(headers, rows)
    ensures |ls| == |rows| + 2
  {
    var ws := Widths(headers, rows);
    [RowLine(headers, ws), SeparatorLine(ws)]
      + seq(|rows|, r requires 0 <= r < |rows| => RowLine(rows[r], ws))
  }

  /** What `format_table(headers, rows)` returns. */
  function TableText(headers: seq<string>, rows: seq<seq<string>>): string
    requires RowsFit(headers, rows)
  {
    if rows == [] then NO_RESOURCES else Join(Lines(headers, rows), "\n") + "\n"
  }

  lemma ColumnWidthStep(headers: seq<string>, rows: seq<seq<string>>, r: nat, j: nat)
    requires r < |rows| && j < |headers|
    ensures ColumnWidth(headers, rows[..r + 1], j)
         == Max(ColumnWidth(headers, rows[..r], j), if j < |rows[r]| then |rows[r][j]| else 0)
  {
    assert rows[..r + 1][..r] == rows[..r];
  }

  /** The widths are computed in place, row by row and cell by cell. */
  method ColumnWidths(headers: seq<string>, rows: seq<seq<string>>) returns (widths: seq<nat>)
    requires RowsFit(headers, rows)
    ensures widths == Widths(headers, rows)
  {
    var colWidths := new nat[|headers|];
    for i := 0 to |headers|
      invariant forall j :: 0 <= j < i ==> colWidths[j] == |headers[j]|
    {
      colWidths[i] := |headers[i]|;
    }
    for r := 0 to |rows|
      invariant forall j :: 0 <= j < |headers| ==> colWidths[j] == ColumnWidth(headers, rows[..r], j)
    {
      var row := rows[r];
      for i := 0 to |row|
        invariant forall j :: 0 <= j < i ==> colWidths[j] == ColumnWidth(headers, rows[..r + 1], j)
        invariant forall j :: i <= j < |headers| ==> colWidths[j] == ColumnWidth(headers, rows[..r], j)
      {
        ColumnWidthStep(headers, rows, r, i);
        colWidths[i] := Max(colWidths[i], |row[i]|);
      }
      forall j | |row| <= j < |headers|
        ensures ColumnWidth(headers, rows[..r + 1], j) == ColumnWidth(headers, rows[..r], j)
      {
        ColumnWidthStep(headers, rows, r, j);
      }
    }
    assert rows[..|rows|] == rows;
    widths := colWidths[..];
  }

  /** The header line and the separator, then one line appended per row. */
  method TableLines(headers: seq<string>, rows: seq<seq<string>>, widths: seq<nat>) returns (lines: seq<string>)
    requires RowsFit(headers, rows)
    requires widths == Widths(headers, rows)
    ensures lines == Lines(headers, rows)
  {
    lines := [RowLine(headers, widths), SeparatorLine(widths)];
    for r := 0 to |rows|
      invariant |lines| == r + 2
      invariant lines[0] == RowLine(headers, widths) && lines[1] == SeparatorLine(widths)
      invariant forall k :: 0 <= k < r ==> lines[k + 2] == RowLine(rows[k], widths)
    {
      lines := lines + [RowLine(rows[r], widths)];
    }
  }

  method FormatTable(headers: seq<string>, rows: seq<seq<string>>) returns (out: string)
    requires RowsFit(headers, rows)
    ensures out == TableText(headers, rows)
    ensures rows == [] ==> out == "_No resources found_\n"
  {
    if rows == [] {
      return NO_RESOURCES;
    }
    var widths := ColumnWidths(headers, rows);
    var lines := TableLines(headers, rows, widths);
    out := Join(lines, "\n") + "\n";
  }

  // ---------------------------------------------------------------------------------------
  // Properties of the table text
  // ---------------------------------------------------------------------------------------

  /**
   * The width of column `i` is the largest of the header's length and the lengths of the
   * cells in that column: no shorter than any of them, and equal to one of them.
   */
  lemma {:induction false} ColumnWidthIsMax(headers: seq<string>, rows: seq<seq<string>>, i: nat)
    requires i < |headers|
    ensures ColumnWidth(headers, rows, i) >= |headers[i]|
    ensures forall r :: 0 <= r < |rows| && i < |rows[r]| ==> |rows[r][i]| <= ColumnWidth(headers, rows, i)
    ensures ColumnWidth(headers, rows, i) == |headers[i]|
         || exists r :: 0 <= r < |rows| && i < |rows[r]| && ColumnWidth(headers, rows, i) == |rows[r][i]|
    decreases |rows|
  {
    if rows != [] {
      var n := |rows|;
      var init := rows[..n - 1];
      ColumnWidthIsMax(headers, init, i);
      assert forall r :: 0 <= r < n - 1 ==> init[r] == rows[r];
    }
  }

  /** Text made of lines, each followed by a newline. */
  function Terminated(ls: seq<string>): string
    decreases |ls|
  {
    if ls == [] then "" else Terminated(ls[..|ls| - 1]) + ls[|ls| - 1] + "\n"
  }

  /** `"\n".join(lines) + "\n"` is the lines one after the other, each ending in a newline. */
  lemma {:induction false} JoinNewlines(ls: seq<string>)
    requires ls != []
    ensures Join(ls, "\n") + "\n" == Terminated(ls)
    decreases |ls|
  {
    if |ls| > 1 {
      JoinNewlines(ls[..|ls| - 1]);
    } else {
      assert ls[..0] == [];
    }
  }

  /**
   * A table with rows is its header line, its separator line and one line per row, in that
   * order, each line ending in a newline; a table without rows is the placeholder alone.
   */
  lemma TableStructure(headers: seq<string>, rows: seq<seq<string>>)
    requires RowsFit(headers, rows)
    ensures rows == [] ==> TableText(headers, rows) == NO_RESOURCES
    ensures rows != [] ==> TableText(headers, rows) == Terminated(Lines(headers, rows))
    ensures rows != [] ==> |Lines(headers, rows)| == |rows| + 2
    ensures forall r :: 0 <= r < |rows| ==> Lines(headers, rows)[r + 2] == RowLine(rows[r], Widths(headers, rows))
  {
    if rows != [] {
      JoinNewlines(Lines(headers, rows));
    }
  }

  /** When every cell fits its width, the padded cells are exactly as long as the widths. */
  lemma PaddedLengths(cells: seq<string>, widths: seq<nat>)
    requires |cells| == |widths|
    requires forall i :: 0 <= i < |cells| ==> |cells[i]| <= widths[i]
    ensures Lengths(Padded(cells, widths)) == widths
  {
  }

  /** A row line whose cells fit their widths: widths plus `" | "` between cells plus `"| "` and `" |"`. */
  lemma RowLineLength(cells: seq<string>, widths: seq<nat>)
    requires |cells| == |widths| > 0
    requires forall i :: 0 <= i < |cells| ==> |cells[i]| <= widths[i]
    ensures |RowLine(cells, widths)| == Sum(widths) + 3 * (|widths| - 1) + 4
  {
    PaddedLengths(cells, widths);
    JoinLength(Padded(cells, widths), " | ");
  }

  /** The separator: dash runs as long as the widths, `"-|-"` between them, `"|-"` and `"-|"` around. */
  lemma SeparatorLineLength(widths: seq<nat>)
    requires |widths| > 0
    ensures |SeparatorLine(widths)| == Sum(widths) + 3 * (|widths| - 1) + 4
    ensures forall i :: 0 <= i < |widths| ==> DashRuns(widths)[i] == Repeat('-', widths[i])
  {
    assert Lengths(DashRuns(widths)) == widths;
    JoinLength(DashRuns(widths), "-|-");
  }

  /** Every header and every cell of a full row fits its column's width. */
  lemma WidthsCover(headers: seq<string>, rows: seq<seq<string>>)
    requires RowsFull(headers, rows)
    ensures var ws := Widths(headers, rows);
      (forall i :: 0 <= i < |headers| ==> |headers[i]| <= ws[i])
      && forall r, i :: 0 <= r < |rows| && 0 <= i < |headers| ==> |rows[r][i]| <= ws[i]
  {
    forall i | 0 <= i < |headers|
      ensures |headers[i]| <= ColumnWidth(headers, rows, i)
      ensures forall r :: 0 <= r < |rows| ==> |rows[r][i]| <= ColumnWidth(headers, rows, i)
    {
      ColumnWidthIsMax(headers, rows, i);
    }
  }

  /** A header, a separator and further lines, all of length `n`. */
  lemma UniformLines(h: string, sep: string, rest: seq<string>, n: nat)
    requires |h| == n && |sep| == n
    requires forall k :: 0 <= k < |rest| ==> |rest[k]| == n
    ensures forall l :: l in [h, sep] + rest ==> |l| == n
  {
    forall l | l in [h, sep] + rest ensures |l| == n {
      if l != h && l != sep {
        assert l in rest;
      }
    }
  }

  /** The lines of a table all have length `n` when its header, separator and row lines do. */
  lemma LinesAllLength(headers: seq<string>, rows: seq<seq<string>>, n: nat)
    requires RowsFit(headers, rows)
    requires |RowLine(headers, Widths(headers, rows))| == n
    requires |SeparatorLine(Widths(headers, rows))| == n
    requires forall r :: 0 <= r < |rows| ==> |RowLine(rows[r], Widths(headers, rows))| == n
    ensures forall l :: l in Lines(headers, rows) ==> |l| == n
  {
    var ws := Widths(headers, rows);
    var rest := seq(|rows|, r requires 0 <= r < |rows| => RowLine(rows[r], ws));
    assert Lines(headers, rows) == [RowLine(headers, ws), SeparatorLine(ws)] + rest;
    UniformLines(RowLine(headers, ws), SeparatorLine(ws), rest, n);
  }

  /**
   * Every cell of the header and of each row is padded to exactly its column's width, so that
   * every line of the table has the same length: the widths, plus 3 per column boundary, plus 4.
   */
  lemma LinesUniform(headers: seq<string>, rows: seq<seq<string>>)
    requires |headers| > 0
    requires RowsFull(headers, rows)
    ensures var ws := Widths(headers, rows);
      forall r, i :: 0 <= r < |rows| && 0 <= i < |headers| ==> |Padded(rows[r], ws)[i]| == ws[i]
    ensures var ws := Widths(headers, rows);
      forall i :: 0 <= i < |headers| ==> |Padded(headers, ws)[i]| == ws[i]
    ensures var ws := Widths(headers, rows);
      forall l :: l in Lines(headers, rows) ==> |l| == Sum(ws) + 3 * (|headers| - 1) + 4
  {
    var ws := Widths(headers, rows);
    var n := Sum(ws) + 3 * (|headers| - 1) + 4;
    WidthsCover(headers, rows);
    RowLineLength(headers, ws);
    SeparatorLineLength(ws);
    forall r | 0 <= r < |rows| ensures |RowLine(rows[r], ws)| == n {
      RowLineLength(rows[r], ws);
    }
    LinesAllLength(headers, rows, n);
  }

  /**
   * Every table text ends in a newline preceded by `|` (a table's last line) or by `_` (the
   * placeholder), so that a note appended after it can always be told apart from the table.
   */
  lemma TableTextEnding(headers: seq<string>, rows: seq<seq<string>>)
    requires RowsFit(headers, rows)
    ensures var t := TableText(headers, rows);
      |t| >= 2 && t[|t| - 1] == '\n' && t[|t| - 2] == (if rows == [] then '_' else '|')
  {
    if rows != [] {
      var ls := Lines(headers, rows);
      var last := ls[|ls| - 1];
      assert last == RowLine(rows[|rows| - 1], Widths(headers, rows));
      assert last[|last| - 1] == '|';
      var j := Join(ls, "\n");
      assert j[|j| - 1] == last[|last| - 1];
    }
  }
}
