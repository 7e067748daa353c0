/**
 * The launch pipeline up to the AppleScript: quoting the project directory
 * for the shell, composing the command every terminal runs, reading the
 * screen bounds printed by the detection script (with its fallback), and the
 * values handed to the tiling script.
 *
 * Running osascript is not modelled: the detection script's standard output
 * is an input (None when the command fails).
 */
module Launcher {
  import opened Text

  datatype Result<+T, +E> = Ok(value: T) | Err(error: E)

  // ---------------------------------------------------------------------------
  // shellQuote

  /** strings.ReplaceAll(s, "'", "'\\''"): each single quote closes the quoting, emits an escaped quote, reopens. */
  function Escape(s: string): string {
    if s == [] then []
    else (if s[0] == '\'' then "'\\''" else [s[0]]) + Escape(s[1..])
  }

  /** A text without single quotes is only wrapped. */
  lemma {:induction false} EscapeWithoutQuotes(s: string)
    requires '\'' !in s
    ensures Escape(s) == s
  {
    if s != [] {
      EscapeWithoutQuotes(s[1..]);
      assert s == [s[0]] + s[1..];
    }
  }

  /** shellQuote: the escaped text between single quotes. */
  function ShellQuote(s: string): (q: string)
    ensures |q| >= 2 && q[0] == '\'' && q[|q| - 1] == '\''
  {
    "'" + Escape(s) + "'"
  }

  /** The number of single quotes in a text. */
  function Quotes(s: string): nat {
    if s == [] then 0 else (if s[0] == '\'' then 1 else 0) + Quotes(s[1..])
  }

  /** Each quote grows by three characters, nothing else changes length. */
  lemma {:induction false} EscapeLength(s: string)
    ensures |Escape(s)| == |s| + 3 * Quotes(s)
  {
    if s != [] {
      EscapeLength(s[1..]);
    }
  }

  /** Escaping keeps every other character, and a single quote leaves a backslash behind. */
  lemma {:induction false} EscapeKeeps(s: string, c: char)
    ensures c in s && c != '\'' ==> c in Escape(s)
    ensures '\'' in s ==> '\\' in Escape(s)
  {
    if s != [] {
      EscapeKeeps(s[1..], c);
      assert s == [s[0]] + s[1..];
    }
  }

  lemma {:induction false} EscapeAppend(a: string, b: string)
    ensures Escape(a + b) == Escape(a) + Escape(b)
  {
    if a != [] {
      assert (a + b)[1..] == a[1..] + b;
      EscapeAppend(a[1..], b);
    } else {
      assert a + b == b;
    }
  }

  /** The worked example: it's becomes 'it'\''s'. */
  lemma ShellQuoteExample()
    ensures ShellQuote("it's") == "'it'\\''s'"
  {
    assert "it's" == "it" + "'s" && "'s" == "'" + "s";
    EscapeAppend("it", "'s");
    EscapeAppend("'", "s");
    EscapeWithoutQuotes("it");
    EscapeWithoutQuotes("s");
    assert Escape("'") == "'\\''";
    assert Escape("it's") == "it" + "'\\''" + "s";
  }

  /**
   * Characters a POSIX shell treats specially outside quotes: blanks, which
   * end a word, and the operator and expansion characters.
   */
  predicate Special(c: char) {
    c == ' ' || c == '\t' || c == '\n' || c == '"' || c == '$' || c == '`' || c == '&' ||
    c == '|' || c == ';' || c == '<' || c == '>' || c == '(' || c == ')' || c == '*' ||
    c == '?' || c == '[' || c == '#' || c == '~'
  }

  function Prepend(c: char, w: Option<string>): Option<string> {
    if w.Some? then Some([c] + w.value) else None
  }

  /**
   * How a POSIX shell reads `t` as a single word, from outside (inQuote false)
   * or inside single quotes: inside, every character is literal up to the
   * closing quote; outside, a quote opens quoting, a backslash makes the next
   * character literal, and a special character means `t` is not one plain
   * word (None). An unterminated quote is None.
   */
  function ReadWord(t: string, inQuote: bool): Option<string>
    decreases |t|
  {
    if t == [] then (if inQuote then None else Some([]))
    else if inQuote then
      if t[0] == '\'' then ReadWord(t[1..], false) else Prepend(t[0], ReadWord(t[1..], true))
    else if t[0] == '\'' then ReadWord(t[1..], true)
    else if t[0] == '\\' then
      if |t| < 2 then None else Prepend(t[1], ReadWord(t[2..], false))
    else if Special(t[0]) then None
    else Prepend(t[0], ReadWord(t[1..], false))
  }

  function Unquote(t: string): Option<string> {
    ReadWord(t, false)
  }

  /** Inside quotes, '\'' closes the quoting, emits a quote and reopens. */
  lemma ReadEscapedQuote(tail: string)
    ensures ReadWord("'\\''" + tail, true) == Prepend('\'', ReadWord(tail, true))
  {
    var t := "'\\''" + tail;
    var u := "\\''" + tail;
    var v := "'" + tail;
    assert t[0] == '\'' && t[1..] == u;
    assert ReadWord(t, true) == ReadWord(u, false);
    assert u[0] == '\\' && u[1] == '\'' && u[2..] == v;
    assert ReadWord(u, false) == Prepend('\'', ReadWord(v, false));
    assert v[0] == '\'' && v[1..] == tail;
    assert ReadWord(v, false) == ReadWord(tail, true);
  }

  /** Inside quotes, any other character is itself. */
  lemma ReadQuotedChar(c: char, tail: string)
    requires c != '\''
    ensures ReadWord([c] + tail, true) == Prepend(c, ReadWord(tail, true))
  {
    assert ([c] + tail)[1..] == tail;
  }

  /** Reading an escaped text inside quotes yields the text, then whatever follows. */
  lemma {:induction false} ReadEscaped(s: string, rest: string)
    ensures ReadWord(Escape(s) + rest, true) ==
              if ReadWord(rest, true).Some? then Some(s + ReadWord(rest, true).value) else None
  {
    if s == [] {
      assert Escape(s) + rest == rest;
      if ReadWord(rest, true).Some? {
        assert s + ReadWord(rest, true).value == ReadWord(rest, true).value;
      }
    } else {
      var tail := Escape(s[1..]) + rest;
      ReadEscaped(s[1..], rest);
      var piece := if s[0] == '\'' then "'\\''" else [s[0]];
      assert Escape(s) == piece + Escape(s[1..]);
      assert Escape(s) + rest == piece + tail;
      if s[0] == '\'' {
        ReadEscapedQuote(tail);
      } else {
        ReadQuotedChar(s[0], tail);
      }
      if ReadWord(rest, true).Some? {
        var v := ReadWord(rest, true).value;
        assert [s[0]] + (s[1..] + v) == s + v;
      }
    }
  }

  /** A quoted text is one shell word, and the shell reads back exactly the text. */
  lemma UnquoteShellQuote(s: string)
    ensures Unquote(ShellQuote(s)) == Some(s)
  {
    var q := ShellQuote(s);
    assert q[1..] == Escape(s) + "'";
    ReadEscaped(s, "'");
    assert "'"[1..] == [];
    assert s + [] == s;
  }

  // ---------------------------------------------------------------------------
  // The command each terminal runs

  /** Launch's options: the project directory, the grid, and the tool's command ("" for none). */
  datatype Options = Options(projectDir: string, cols: int, rows: int, command: string)

  /** The terminal command: cd into the quoted directory and clear, then the tool's command if there is one. */
  function TermCommand(dir: string, command: string): (r: string)
    ensures "cd " + ShellQuote(dir) + " && clear" <= r
    ensures command == "" <==> |r| == 3 + |ShellQuote(dir)| + 9
  {
    var base := "cd " + ShellQuote(dir) + " && clear";
    if command != "" then base + " && " + command else base
  }

  /** A single quote in the directory leaves a backslash in the command, and a double quote stays as it is. */
  lemma TermCommandKeepsQuotes(dir: string, command: string)
    requires '\'' in dir || '"' in dir
    ensures '"' in TermCommand(dir, command) || '\\' in TermCommand(dir, command)
  {
    EscapeKeeps(dir, '"');
    var q := ShellQuote(dir);
    assert q == "'" + Escape(dir) + "'";
    assert '"' in q || '\\' in q;
    var base := "cd " + q + " && clear";
    assert base == "cd " + q + " && clear";
    assert '"' in base || '\\' in base;
  }

  /**
   * The command starts by changing into the quoted directory, which the shell
   * reads back as exactly `dir`; the tool's command follows " && " exactly
   * when it is non-empty, and otherwise the command ends with "clear".
   */
  lemma TermCommandShape(dir: string, command: string)
    ensures var r := TermCommand(dir, command);
      var q := ShellQuote(dir);
      |r| >= 3 + |q| + 9 && r[..3] == "cd " && r[3..3 + |q|] == q && Unquote(q) == Some(dir) &&
      r[3 + |q|..3 + |q| + 9] == " && clear" &&
      (command == "" <==> |r| == 3 + |q| + 9) &&
      (command != "" ==> r[3 + |q| + 9..] == " && " + command)
  {
    UnquoteShellQuote(dir);
    var q := ShellQuote(dir);
    var base := "cd " + q + " && clear";
    CdShape(q);
    var r := TermCommand(dir, command);
    if command != "" {
      var tail := " && " + command;
      assert r == base + tail;
      assert r[|base|..] == tail;
      SliceOfPrefix(base, tail, 0, 3);
      SliceOfPrefix(base, tail, 3, 3 + |q|);
      SliceOfPrefix(base, tail, 3 + |q|, |base|);
    } else {
      assert r == base;
    }
  }

  lemma CdShape(q: string)
    ensures var base := "cd " + q + " && clear";
      |base| == 3 + |q| + 9 && base[..3] == "cd " && base[3..3 + |q|] == q && base[3 + |q|..] == " && clear"
  {
  }

  lemma SliceOfPrefix(a: string, b: string, i: nat, j: nat)
    requires i <= j <= |a|
    ensures (a + b)[i..j] == a[i..j]
  {
    assert forall k :: i <= k < j ==> (a + b)[k] == a[k];
  }

  // ---------------------------------------------------------------------------
  // detectScreen

  /** The screen rectangle: top-left and bottom-right corners. */
  datatype Bounds = Bounds(x1: int, y1: int, x2: int, y2: int)

  /** detectScreen's three failures. */
  datatype ScreenError =
    | DetectionFailed
    | UnexpectedOutput(output: string)
    | BadBound(field: string)

  /** The first field Atoi rejects, if any. */
  function BadField(parts: seq<string>): (r: Option<string>)
    ensures r.None? <==> forall j :: 0 <= j < |parts| ==> Atoi(parts[j]).Some?
  {
    if parts == [] then None
    else if Atoi(parts[0]).None? then Some(parts[0])
    else BadField(parts[1..])
  }

  /**
   * What detectScreen returns: the four whitespace-separated fields of the
   * trimmed output as X1, Y1, X2, Y2; an error when the command failed, when
   * there are not exactly four fields, or naming the first field that is not
   * an integer.
   */
  function ScreenOf(output: Option<string>): Result<Bounds, ScreenError> {
    if output.None? then Err(DetectionFailed)
    else
      var parts := Fields(TrimSpace(output.value));
      if |parts| != 4 then Err(UnexpectedOutput(output.value))
      else if BadField(parts).Some? then Err(BadBound(BadField(parts).value))
      else Ok(Bounds(Atoi(parts[0]).value, Atoi(parts[1]).value, Atoi(parts[2]).value, Atoi(parts[3]).value))
  }

  lemma {:induction false} BadFieldIs(parts: seq<string>, i: nat)
    requires i < |parts| && Atoi(parts[i]).None?
    requires forall j :: 0 <= j < i ==> Atoi(parts[j]).Some?
    ensures BadField(parts) == Some(parts[i])
  {
    if i > 0 {
      forall j | 0 <= j < i - 1 ensures Atoi(parts[1..][j]).Some? {
        assert parts[1..][j] == parts[j + 1];
      }
      BadFieldIs(parts[1..], i - 1);
    }
  }

  /** The fields loop: each field goes through Atoi into its slot, the first failure returns. */
  method DetectScreen(output: Option<string>) returns (r: Result<Bounds, ScreenError>)
    ensures r == ScreenOf(output)
  {
    if output.None? {
      return Err(DetectionFailed);
    }
    var parts := Fields(TrimSpace(output.value));
    if |parts| != 4 {
      return Err(UnexpectedOutput(output.value));
    }
    var vals := new int[4];
    for i := 0 to 4
      invariant forall j :: 0 <= j < i ==> Atoi(parts[j]).Some? && vals[j] == Atoi(parts[j]).value
    {
      var v := Atoi(parts[i]);
      if v.None? {
        BadFieldIs(parts, i);
        return Err(BadBound(parts[i]));
      }
      vals[i] := v.value;
    }
    return Ok(Bounds(vals[0], vals[1], vals[2], vals[3]));
  }

  /** Success means exactly four fields, every one an integer, read in order. */
  lemma ScreenOfAccepts(output: string)
    ensures ScreenOf(Some(output)).Ok? <==>
              var parts := Fields(TrimSpace(output));
              |parts| == 4 && forall j :: 0 <= j < 4 ==> Atoi(parts[j]).Some?
    ensures ScreenOf(Some(output)).Ok? ==>
              var parts := Fields(TrimSpace(output));
              var b := ScreenOf(Some(output)).value;
              [b.x1, b.y1, b.x2, b.y2] == [Atoi(parts[0]).value, Atoi(parts[1]).value, Atoi(parts[2]).value, Atoi(parts[3]).value]
  {
  }

  /** The word, a space and the rest of a line: the word, then the fields of the rest. */
  lemma FieldsWordSpace(w: string, rest: string)
    requires w != [] && NoSpace(w)
    ensures Fields(w + " " + rest) == [w] + Fields(rest)
  {
    assert w + " " + rest == w + (" " + rest);
    FieldsOfWord(w, " " + rest);
    FieldsDropSpace(' ', rest);
  }

  /** The line the detection script prints: the four rounded bounds, space separated. */
  function DetectionLine(b: Bounds): string {
    Itoa(b.x1) + " " + (Itoa(b.y1) + " " + (Itoa(b.x2) + " " + Itoa(b.y2)))
  }

  predicate InInt64(b: Bounds) {
    MinInt64 <= b.x1 <= MaxInt64 && MinInt64 <= b.y1 <= MaxInt64 &&
    MinInt64 <= b.x2 <= MaxInt64 && MinInt64 <= b.y2 <= MaxInt64
  }

  /** Four words separated by single spaces are four fields. */
  lemma FieldsOfFour(a: string, c: string, d: string, e: string)
    requires a != [] && c != [] && d != [] && e != []
    requires NoSpace(a) && NoSpace(c) && NoSpace(d) && NoSpace(e)
    ensures Fields(a + " " + (c + " " + (d + " " + e))) == [a, c, d, e]
  {
    FieldsWordSpace(a, c + " " + (d + " " + e));
    FieldsWordSpace(c, d + " " + e);
    FieldsWordSpace(d, e);
    FieldsOfWord(e, []);
    assert e + [] == e;
  }

  /** The printed line splits into the four numbers' texts. */
  lemma FieldsOfDetectionLine(b: Bounds)
    ensures Fields(DetectionLine(b)) == [Itoa(b.x1), Itoa(b.y1), Itoa(b.x2), Itoa(b.y2)]
  {
    ItoaChars(b.x1);
    ItoaChars(b.y1);
    ItoaChars(b.x2);
    ItoaChars(b.y2);
    FieldsOfFour(Itoa(b.x1), Itoa(b.y1), Itoa(b.x2), Itoa(b.y2));
  }

  /** The trailing newline is trimmed away, and nothing else. */
  lemma TrimDetectionLine(b: Bounds)
    ensures TrimSpace(DetectionLine(b) + "\n") == DetectionLine(b)
  {
    var a, e := Itoa(b.x1), Itoa(b.y2);
    ItoaChars(b.x1);
    ItoaChars(b.y2);
    var line := DetectionLine(b);
    assert line[0] == a[0] && line[|line| - 1] == e[|e| - 1];
    TrimSpaceKeepsTrimmed(line);
    var out := line + "\n";
    assert out[..|out| - 1] == line && out[0] == line[0];
  }

  /** Whatever bounds the detection script prints, with its trailing newline, are read back unchanged. */
  lemma ScreenOfDetectionLine(b: Bounds)
    requires InInt64(b)
    ensures ScreenOf(Some(DetectionLine(b) + "\n")) == Ok(b)
  {
    TrimDetectionLine(b);
    FieldsOfDetectionLine(b);
    AtoiItoa(b.x1);
    AtoiItoa(b.y1);
    AtoiItoa(b.x2);
    AtoiItoa(b.y2);
  }

  // ---------------------------------------------------------------------------
  // Launch

  /** The bounds used when detection fails: a 1920x1080 screen at the origin. */
  const Fallback: Bounds := Bounds(0, 0, 1920, 1080)

  /** The values buildTilingScript hands to the template. */
  datatype ScriptData = ScriptData(bounds: Bounds, cols: int, rows: int, termCmd: string)

  /** Launch up to the template: detected bounds or the fallback, the grid, and the terminal command. */
  function LaunchData(opts: Options, output: Option<string>): (d: ScriptData)
    ensures d.cols == opts.cols && d.rows == opts.rows
    ensures d.termCmd == TermCommand(opts.projectDir, opts.command)
  {
    var screen := ScreenOf(output);
    var bounds := if screen.Ok? then screen.value else Fallback;
    ScriptData(bounds, opts.cols, opts.rows, TermCommand(opts.projectDir, opts.command))
  }

  /**
   * A detection failure is never reported: every failure becomes the
   * fallback bounds, and a successful detection is used as read.
   */
  lemma LaunchUsesDetectedOrFallback(opts: Options, output: Option<string>)
    ensures output.None? ==> LaunchData(opts, output).bounds == Fallback
    ensures output.Some? && |Fields(TrimSpace(output.value))| != 4 ==> LaunchData(opts, output).bounds == Fallback
    ensures ScreenOf(output).Ok? ==> LaunchData(opts, output).bounds == ScreenOf(output).value
    ensures ScreenOf(output).Err? ==> LaunchData(opts, output).bounds == Fallback
  {
  }

  /**
   * The escaping an AppleScript string literal needs: a backslash before
   * every backslash and every double quote.
   */
  function ScriptEscape(t: string): (r: string)
    ensures |r| >= |t|
    ensures '"' !in t && '\\' !in t ==> r == t
  {
    if t == [] then []
    else
      assert t == [t[0]] + t[1..];
      (if t[0] == '"' || t[0] == '\\' then ['\\', t[0]] else [t[0]]) + ScriptEscape(t[1..])
  }

  /** Launch with the terminal command escaped for the script's string literal before it is filled in. */
  function EscapedLaunchData(opts: Options, output: Option<string>): (d: ScriptData)
    ensures d.bounds == LaunchData(opts, output).bounds
    ensures d.cols == opts.cols && d.rows == opts.rows
    ensures d.termCmd == ScriptEscape(TermCommand(opts.projectDir, opts.command))
  {
    LaunchData(opts, output).(termCmd := ScriptEscape(TermCommand(opts.projectDir, opts.command)))
  }

  /** When the detection script prints the screen's bounds, they are the ones the tiling uses. */
  lemma LaunchUsesPrintedBounds(opts: Options, b: Bounds)
    requires InInt64(b)
    ensures LaunchData(opts, Some(DetectionLine(b) + "\n")).bounds == b
  {
    ScreenOfDetectionLine(b);
  }
}
