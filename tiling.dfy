/**
 * The tiling AppleScript: with the template's values filled in, it divides
 * the screen below a 25-pixel menu bar into rows x cols equal cells and, row
 * by row and left to right, opens one Terminal window per cell running the
 * terminal command and moves it onto its cell.
 *
 * AppleScript's `/` is real division; `as integer` is a rounding whose
 * tie-breaking this model does not fix, so it is a parameter applied to
 * every edge alike.
 */
module Tiling {
  import opened Text
  import opened Launcher

  /** The height the script reserves for the menu bar. */
  const MenuBar: int := 25

  /** One iteration of the inner loop: `do script` with this command, then these window bounds. */
  datatype Placement = Placement(command: string, x1: int, y1: int, x2: int, y2: int)

  /**
   * A script whose `do script` literal cannot be read does not compile, so
   * nothing runs; a zero column or row count stops the script at its division.
   */
  datatype ScriptError = UnreadableCommand | DivisionByZero

  // ---------------------------------------------------------------------------
  // The `do script "..."` string literal

  /**
   * The text AppleScript reads from a string literal whose body is `b`: the
   * body runs to the first unescaped double quote, so a bare '"' ends the
   * literal early and leaves the rest of the line unparsable; `\"`, `\\`,
   * `\n`, `\r` and `\t` are escapes, and a backslash before anything else,
   * or at the very end, makes the literal unreadable.
   */
  function LiteralValue(b: string): Option<string>
    decreases |b|
  {
    if b == [] then Some([])
    else if b[0] == '"' then None
    else if b[0] == '\\' then
      if |b| < 2 then None
      else if b[1] == '"' || b[1] == '\\' then Prepend(b[1], LiteralValue(b[2..]))
      else if b[1] == 'n' then Prepend('\n', LiteralValue(b[2..]))
      else if b[1] == 'r' then Prepend('\r', LiteralValue(b[2..]))
      else if b[1] == 't' then Prepend('\t', LiteralValue(b[2..]))
      else None
    else Prepend(b[0], LiteralValue(b[1..]))
  }

  /** The script compiles: its `do script` literal can be read. */
  predicate Readable(d: ScriptData) {
    LiteralValue(d.termCmd).Some?
  }

  /** A readable literal never reads longer than its body. */
  lemma {:induction false} LiteralValueLength(b: string)
    requires LiteralValue(b).Some?
    ensures |LiteralValue(b).value| <= |b|
    ensures |LiteralValue(b).value| == |b| ==> '"' !in b && '\\' !in b
    decreases |b|
  {
    if b != [] {
      if b[0] == '\\' {
        LiteralValueLength(b[2..]);
      } else {
        LiteralValueLength(b[1..]);
        assert b == [b[0]] + b[1..];
      }
    }
  }

  /** A body reads back as itself exactly when it holds no double quote and no backslash. */
  lemma {:induction false} LiteralValueVerbatim(t: string)
    ensures LiteralValue(t) == Some(t) <==> '"' !in t && '\\' !in t
    decreases |t|
  {
    if LiteralValue(t) == Some(t) {
      LiteralValueLength(t);
    }
    if '"' !in t && '\\' !in t && t != [] {
      LiteralValueVerbatim(t[1..]);
      assert t == [t[0]] + t[1..];
    }
  }

  /** Escaping for the literal is undone by reading it: every text survives. */
  lemma {:induction false} LiteralValueOfEscaped(t: string)
    ensures LiteralValue(ScriptEscape(t)) == Some(t)
  {
    if t != [] {
      LiteralValueOfEscaped(t[1..]);
      var e := ScriptEscape(t);
      var rest := ScriptEscape(t[1..]);
      if t[0] == '"' || t[0] == '\\' {
        assert e == ['\\', t[0]] + rest && e[2..] == rest;
      } else {
        assert e == [t[0]] + rest && e[1..] == rest;
      }
      assert t == [t[0]] + t[1..];
    }
  }

  /**
   * A bare double quote after a readable start ends the literal early, as
   * in the command for the directory `/projects/my "project"`: the script
   * cannot be read at all.
   */
  lemma QuoteEndsLiteral(a: string, b: string)
    requires LiteralValue(a).Some?
    ensures LiteralValue(a + "\"" + b).None?
  {
    LiteralAppend(a, "\"" + b);
    assert a + "\"" + b == a + ("\"" + b);
  }

  /** A body that reads cleanly can be followed by anything: the reading continues where it stopped. */
  lemma {:induction false} LiteralAppend(a: string, b: string)
    requires LiteralValue(a).Some?
    ensures LiteralValue(a + b) ==
              if LiteralValue(b).Some? then Some(LiteralValue(a).value + LiteralValue(b).value) else None
    decreases |a|
  {
    if a == [] {
      assert a + b == b && LiteralValue(a).value == [];
      if LiteralValue(b).Some? {
        assert [] + LiteralValue(b).value == LiteralValue(b).value;
      }
    } else if a[0] == '\\' {
      var c := if a[1] == 'n' then '\n' else if a[1] == 'r' then '\r' else if a[1] == 't' then '\t' else a[1];
      assert (a + b)[0] == a[0] && (a + b)[1] == a[1];
      assert (a + b)[2..] == a[2..] + b;
      assert LiteralValue(a) == Prepend(c, LiteralValue(a[2..]));
      assert LiteralValue(a + b) == Prepend(c, LiteralValue(a[2..] + b));
      LiteralAppend(a[2..], b);
      if LiteralValue(b).Some? {
        assert [c] + (LiteralValue(a[2..]).value + LiteralValue(b).value) ==
               [c] + LiteralValue(a[2..]).value + LiteralValue(b).value;
      }
    } else {
      assert (a + b)[0] == a[0] && (a + b)[1..] == a[1..] + b;
      assert LiteralValue(a) == Prepend(a[0], LiteralValue(a[1..]));
      assert LiteralValue(a + b) == Prepend(a[0], LiteralValue(a[1..] + b));
      LiteralAppend(a[1..], b);
      if LiteralValue(b).Some? {
        assert [a[0]] + (LiteralValue(a[1..]).value + LiteralValue(b).value) ==
               [a[0]] + LiteralValue(a[1..]).value + LiteralValue(b).value;
      }
    }
  }

  function CellWidth(d: ScriptData): real
    requires d.cols != 0
  {
    (d.bounds.x2 - d.bounds.x1) as real / d.cols as real
  }

  function CellHeight(d: ScriptData): real
    requires d.rows != 0
  {
    (d.bounds.y2 - d.bounds.y1 - MenuBar) as real / d.rows as real
  }

  /** The left edge of column c, before rounding. */
  function Left(d: ScriptData, c: int): real
    requires d.cols != 0
  {
    d.bounds.x1 as real + c as real * CellWidth(d)
  }

  /** The top edge of row r, before rounding: below the menu bar. */
  function Top(d: ScriptData, r: int): real
    requires d.rows != 0
  {
    (d.bounds.y1 + MenuBar) as real + r as real * CellHeight(d)
  }

  /** The placement of the cell in row r and column c. */
  function Cell(d: ScriptData, cmd: string, asInteger: real -> int, r: int, c: int): Placement
    requires d.cols != 0 && d.rows != 0
  {
    Placement(cmd, asInteger(Left(d, c)), asInteger(Top(d, r)),
              asInteger(Left(d, c + 1)), asInteger(Top(d, r + 1)))
  }

  /** The first n cells of row r, left to right. */
  function RowCells(d: ScriptData, cmd: string, asInteger: real -> int, r: int, n: nat): (cells: seq<Placement>)
    requires d.cols != 0 && d.rows != 0
    ensures |cells| == n
  {
    if n == 0 then [] else RowCells(d, cmd, asInteger, r, n - 1) + [Cell(d, cmd, asInteger, r, n - 1)]
  }

  /** `repeat with i from 0 to (n - 1)` runs max(n, 0) times. */
  function Count(n: int): nat {
    if n < 0 then 0 else n
  }

  /** The first n full rows, top to bottom. */
  function Rows(d: ScriptData, cmd: string, asInteger: real -> int, n: nat): seq<Placement>
    requires d.cols != 0 && d.rows != 0
  {
    if n == 0 then [] else Rows(d, cmd, asInteger, n - 1) + RowCells(d, cmd, asInteger, n - 1, Count(d.cols))
  }

  /**
   * What the script does: nothing when its literal cannot be read; otherwise
   * all rows, each window running the command the literal reads as, or the
   * division error.
   */
  function Tiled(d: ScriptData, asInteger: real -> int): Result<seq<Placement>, ScriptError> {
    var cmd := LiteralValue(d.termCmd);
    if cmd.None? then Err(UnreadableCommand)
    else if d.cols == 0 || d.rows == 0 then Err(DivisionByZero)
    else Ok(Rows(d, cmd.value, asInteger, Count(d.rows)))
  }

  /** Compiling the script reads its literal; running it executes the nested repeat loops. */
  method RunScript(d: ScriptData, asInteger: real -> int) returns (r: Result<seq<Placement>, ScriptError>)
    ensures r == Tiled(d, asInteger)
  {
    var literal := LiteralValue(d.termCmd);
    if literal.None? {
      return Err(UnreadableCommand);
    }
    if d.cols == 0 || d.rows == 0 {
      return Err(DivisionByZero);
    }
    var placed := RunLoops(d, literal.value, asInteger);
    return Ok(placed);
  }

  /** The script's nested repeat loops, every window running `cmd`. */
  method RunLoops(d: ScriptData, cmd: string, asInteger: real -> int) returns (placed: seq<Placement>)
    requires d.cols != 0 && d.rows != 0
    ensures placed == Rows(d, cmd, asInteger, Count(d.rows))
  {
    var cellW := CellWidth(d);
    var cellH := CellHeight(d);
    placed := [];
    var row := 0;
    while row <= d.rows - 1
      invariant 0 <= row <= Count(d.rows)
      invariant placed == Rows(d, cmd, asInteger, row)
    {
      var col := 0;
      while col <= d.cols - 1
        invariant 0 <= col <= Count(d.cols)
        invariant placed == Rows(d, cmd, asInteger, row) + RowCells(d, cmd, asInteger, row, col)
      {
        var x1 := asInteger(d.bounds.x1 as real + col as real * cellW);
        var x2 := asInteger(d.bounds.x1 as real + (col + 1) as real * cellW);
        var y1 := asInteger((d.bounds.y1 + MenuBar) as real + row as real * cellH);
        var y2 := asInteger((d.bounds.y1 + MenuBar) as real + (row + 1) as real * cellH);
        CellEdges(d, cmd, asInteger, cellW, cellH, row, col);
        var cell := Placement(cmd, x1, y1, x2, y2);
        assert cell == Cell(d, cmd, asInteger, row, col);
        assert RowCells(d, cmd, asInteger, row, col + 1) == RowCells(d, cmd, asInteger, row, col) + [cell];
        assert placed + [cell] == Rows(d, cmd, asInteger, row) + (RowCells(d, cmd, asInteger, row, col) + [cell]);
        placed := placed + [cell];
        col := col + 1;
      }
      assert Rows(d, cmd, asInteger, row + 1) == Rows(d, cmd, asInteger, row) + RowCells(d, cmd, asInteger, row, Count(d.cols));
      row := row + 1;
    }
  }

  /** The edges one loop iteration computes are those of Cell. */
  lemma CellEdges(d: ScriptData, cmd: string, asInteger: real -> int, cellW: real, cellH: real, r: int, c: int)
    requires d.cols != 0 && d.rows != 0
    requires cellW == CellWidth(d) && cellH == CellHeight(d)
    ensures Placement(cmd,
                      asInteger(d.bounds.x1 as real + c as real * cellW),
                      asInteger((d.bounds.y1 + MenuBar) as real + r as real * cellH),
                      asInteger(d.bounds.x1 as real + (c + 1) as real * cellW),
                      asInteger((d.bounds.y1 + MenuBar) as real + (r + 1) as real * cellH))
            == Cell(d, cmd, asInteger, r, c)
  {
    assert d.bounds.x1 as real + c as real * cellW == Left(d, c);
    assert d.bounds.x1 as real + (c + 1) as real * cellW == Left(d, c + 1);
    assert (d.bounds.y1 + MenuBar) as real + r as real * cellH == Top(d, r);
    assert (d.bounds.y1 + MenuBar) as real + (r + 1) as real * cellH == Top(d, r + 1);
  }

  // ---------------------------------------------------------------------------
  // Geometry

  lemma MulStep(a: nat, b: nat)
    ensures (a + 1) * b == a * b + b
  {
  }

  lemma {:induction false} RowsLength(d: ScriptData, cmd: string, asInteger: real -> int, n: nat)
    requires d.cols != 0 && d.rows != 0
    ensures |Rows(d, cmd, asInteger, n)| == n * Count(d.cols)
  {
    if n > 0 {
      RowsLength(d, cmd, asInteger, n - 1);
      MulStep(n - 1, Count(d.cols));
    }
  }

  lemma {:induction false} RowCellsIndex(d: ScriptData, cmd: string, asInteger: real -> int, r: int, n: nat, c: nat)
    requires d.cols != 0 && d.rows != 0 && c < n
    ensures RowCells(d, cmd, asInteger, r, n)[c] == Cell(d, cmd, asInteger, r, c)
  {
    if c < n - 1 {
      RowCellsIndex(d, cmd, asInteger, r, n - 1, c);
    }
  }

  lemma RowMajorBound(r: nat, c: nat, n: nat, cols: nat)
    requires r < n && c < cols
    ensures r * cols + c < n * cols
  {
    MulMono(r + 1, n, cols);
    MulStep(r, cols);
  }

  lemma MulMono(a: nat, b: nat, k: nat)
    requires a <= b
    ensures a * k <= b * k
  {
  }

  /** Row-major order: cell (r, c) is at index r * cols + c. */
  lemma {:induction false} RowsIndex(d: ScriptData, cmd: string, asInteger: real -> int, n: nat, r: nat, c: nat)
    requires d.cols > 0 && d.rows != 0 && r < n && c < d.cols
    ensures |Rows(d, cmd, asInteger, n)| == n * d.cols
    ensures Rows(d, cmd, asInteger, n)[r * d.cols + c] == Cell(d, cmd, asInteger, r, c)
  {
    RowsLength(d, cmd, asInteger, n);
    RowsLength(d, cmd, asInteger, n - 1);
    if r < n - 1 {
      RowsIndex(d, cmd, asInteger, n - 1, r, c);
      RowMajorBound(r, c, n - 1, d.cols);
    } else {
      assert r * d.cols + c - (n - 1) * d.cols == c;
      RowCellsIndex(d, cmd, asInteger, n - 1, d.cols, c);
    }
  }

  /** The script places exactly rows x cols cells, and cell (r, c) at index r * cols + c: row-major order. */
  lemma TiledAt(d: ScriptData, asInteger: real -> int, r: nat, c: nat)
    requires Readable(d) && d.cols > 0 && d.rows > 0 && r < d.rows && c < d.cols
    ensures Tiled(d, asInteger).Ok?
    ensures var cells := Tiled(d, asInteger).value;
      |cells| == d.rows * d.cols && r * d.cols + c < |cells| &&
      cells[r * d.cols + c] == Cell(d, LiteralValue(d.termCmd).value, asInteger, r, c)
  {
    var cmd := LiteralValue(d.termCmd).value;
    RowsIndex(d, cmd, asInteger, d.rows, r, c);
    RowMajorBound(r, c, d.rows, d.cols);
  }

  /** Every window the script opens runs the same command. */
  lemma {:induction false} RowsCommand(d: ScriptData, cmd: string, asInteger: real -> int, n: nat)
    requires d.cols != 0 && d.rows != 0
    ensures forall k :: 0 <= k < |Rows(d, cmd, asInteger, n)| ==> Rows(d, cmd, asInteger, n)[k].command == cmd
  {
    if n > 0 {
      RowsCommand(d, cmd, asInteger, n - 1);
      RowCellsCommand(d, cmd, asInteger, n - 1, Count(d.cols));
    }
  }

  lemma {:induction false} RowCellsCommand(d: ScriptData, cmd: string, asInteger: real -> int, r: int, n: nat)
    requires d.cols != 0 && d.rows != 0
    ensures forall k :: 0 <= k < n ==> RowCells(d, cmd, asInteger, r, n)[k].command == cmd
  {
    if n > 0 {
      RowCellsCommand(d, cmd, asInteger, r, n - 1);
    }
  }

  /**
   * Neighbouring cells share their edges: a cell's right edge is the next
   * column's left edge and its bottom edge the next row's top edge.
   */
  lemma SharedEdges(d: ScriptData, asInteger: real -> int, r: nat, c: nat)
    requires Readable(d) && d.cols > 0 && d.rows > 0 && r < d.rows && c < d.cols
    ensures Tiled(d, asInteger).Ok?
    ensures var cells := Tiled(d, asInteger).value;
      (c + 1 < d.cols ==>
         r * d.cols + c + 1 < |cells| && cells[r * d.cols + c].x2 == cells[r * d.cols + c + 1].x1) &&
      (r + 1 < d.rows ==>
         (r + 1) * d.cols + c < |cells| && cells[r * d.cols + c].y2 == cells[(r + 1) * d.cols + c].y1)
  {
    TiledAt(d, asInteger, r, c);
    if c + 1 < d.cols {
      TiledAt(d, asInteger, r, c + 1);
    }
    if r + 1 < d.rows {
      TiledAt(d, asInteger, r + 1, c);
    }
  }

  /**
   * Before rounding the grid fills the screen exactly: the last column ends
   * at X2 and the last row at Y2, so the menu bar is taken off once.
   */
  lemma FarEdges(d: ScriptData)
    requires d.cols != 0 && d.rows != 0
    ensures Left(d, 0) == d.bounds.x1 as real && Left(d, d.cols) == d.bounds.x2 as real
    ensures Top(d, 0) == (d.bounds.y1 + MenuBar) as real && Top(d, d.rows) == d.bounds.y2 as real
  {
  }

  /**
   * The windows cover the screen below the menu bar: the first column starts
   * at X1, the top row at Y1 + 25, the last column ends at X2 and the last
   * row at Y2 (each edge rounded).
   */
  lemma ScreenEdges(d: ScriptData, asInteger: real -> int, r: nat, c: nat)
    requires Readable(d) && d.cols > 0 && d.rows > 0 && r < d.rows && c < d.cols
    ensures Tiled(d, asInteger).Ok?
    ensures var cells := Tiled(d, asInteger).value;
      r * d.cols < |cells| && cells[r * d.cols].x1 == asInteger(d.bounds.x1 as real) &&
      c < |cells| && cells[c].y1 == asInteger((d.bounds.y1 + MenuBar) as real) &&
      r * d.cols + d.cols - 1 < |cells| && cells[r * d.cols + d.cols - 1].x2 == asInteger(d.bounds.x2 as real) &&
      (d.rows - 1) * d.cols + c < |cells| && cells[(d.rows - 1) * d.cols + c].y2 == asInteger(d.bounds.y2 as real)
  {
    FarEdges(d);
    TiledAt(d, asInteger, r, 0);
    TiledAt(d, asInteger, 0, c);
    TiledAt(d, asInteger, r, d.cols - 1);
    TiledAt(d, asInteger, d.rows - 1, c);
  }

  /** The script fails before anything runs exactly when its literal is unreadable or the grid is empty in one direction. */
  lemma TiledErrors(d: ScriptData, asInteger: real -> int)
    ensures Tiled(d, asInteger) == Err(UnreadableCommand) <==> !Readable(d)
    ensures Tiled(d, asInteger) == Err(DivisionByZero) <==> Readable(d) && (d.cols == 0 || d.rows == 0)
  {
  }

  /**
   * Launching as written: for a non-empty grid, the script runs only when the
   * terminal command reads as a literal, and then every window runs what the
   * literal reads as, which is the command itself exactly when it holds no
   * double quote and no backslash.
   */
  lemma LaunchRunsCommandEverywhere(opts: Options, output: Option<string>, asInteger: real -> int)
    requires opts.cols > 0 && opts.rows > 0
    ensures var d, t := LaunchData(opts, output), TermCommand(opts.projectDir, opts.command);
      (Tiled(d, asInteger).Ok? <==> LiteralValue(t).Some?) &&
      (LiteralValue(t) == Some(t) <==> '"' !in t && '\\' !in t) &&
      (Tiled(d, asInteger).Ok? ==>
         |Tiled(d, asInteger).value| == opts.rows * opts.cols &&
         forall k :: 0 <= k < |Tiled(d, asInteger).value| ==>
           Tiled(d, asInteger).value[k].command == LiteralValue(t).value)
  {
    var d, t := LaunchData(opts, output), TermCommand(opts.projectDir, opts.command);
    LiteralValueVerbatim(t);
    if LiteralValue(t).Some? {
      RowsLength(d, LiteralValue(t).value, asInteger, d.rows);
      RowsCommand(d, LiteralValue(t).value, asInteger, d.rows);
    }
  }

  /**
   * As written, a project directory holding a single or double quote breaks
   * the launch: shellQuote turns a single quote into a backslash sequence,
   * a double quote stays, and either keeps the literal from reading back as
   * the command, so no window runs the command.
   */
  lemma QuoteBreaksCommand(opts: Options, output: Option<string>, asInteger: real -> int)
    requires '\'' in opts.projectDir || '"' in opts.projectDir
    ensures var d, t := LaunchData(opts, output), TermCommand(opts.projectDir, opts.command);
      LiteralValue(t) != Some(t) &&
      forall k :: Tiled(d, asInteger).Ok? && 0 <= k < |Tiled(d, asInteger).value| ==>
        Tiled(d, asInteger).value[k].command != t
  {
    var d, t := LaunchData(opts, output), TermCommand(opts.projectDir, opts.command);
    TermCommandKeepsQuotes(opts.projectDir, opts.command);
    LiteralValueVerbatim(t);
    if Tiled(d, asInteger).Ok? {
      RowsCommand(d, LiteralValue(t).value, asInteger, Count(d.rows));
    }
  }

  /**
   * Launching with the command escaped for the literal: for a non-empty grid
   * the script always runs, placing rows x cols windows, each running cd into
   * the project directory and then the tool's command, whatever characters
   * the directory or the command hold.
   */
  lemma EscapedLaunchRunsCommandEverywhere(opts: Options, output: Option<string>, asInteger: real -> int)
    requires opts.cols > 0 && opts.rows > 0
    ensures var d := EscapedLaunchData(opts, output);
      Tiled(d, asInteger).Ok? &&
      |Tiled(d, asInteger).value| == opts.rows * opts.cols &&
      forall k :: 0 <= k < |Tiled(d, asInteger).value| ==>
        Tiled(d, asInteger).value[k].command == TermCommand(opts.projectDir, opts.command)
  {
    var d, t := EscapedLaunchData(opts, output), TermCommand(opts.projectDir, opts.command);
    LiteralValueOfEscaped(t);
    RowsLength(d, t, asInteger, d.rows);
    RowsCommand(d, t, asInteger, d.rows);
  }
}
