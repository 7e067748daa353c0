/**
 * The persisted configuration record and the one-line summary a preset shows
 * in the preset list.
 */
module Config {
  import opened Text

  /**
   * A saved selection. `layout` holds a layout identifier in either the
   * comma format ("3,4") or the legacy "ColsxRows" format ("2x2").
   * A non-empty `projectBottom` marks a split-workspace preset.
   */
  datatype Preset = Preset(
    name: string,
    project: string,
    layout: string,
    tool: string,
    projectBottom: string,
    toolBottom: string)

  /** A user-entered layout: its display name and its per-row column counts. */
  datatype CustomLayout = CustomLayout(name: string, rowCols: seq<int>)

  /**
   * The configuration the wizard reads and appends to. `customCommands` is a
   * Go map; it is held here as its entries in the order `range` visits them.
   */
  datatype Config = Config(
    defaultLayout: string,
    defaultTool: string,
    customCommands: seq<(string, string)>,
    presets: seq<Preset>,
    customLayouts: seq<CustomLayout>)

  /** An empty tool name is displayed as "None". */
  function ShownTool(tool: string): string {
    if tool == "" then "None" else tool
  }

  /**
   * Preset.Summary: "Project | Layout | Tool", or in split form
   * "Project + ProjectBottom | Layout | Tool + ToolBottom". It always holds
   * the column bar, and every field it shows plus the separators.
   */
  function Summary(p: Preset): (r: string)
    ensures |r| >= |p.project| + |p.layout| + |ShownTool(p.tool)| + 6
    ensures '|' in r
  {
    var tool := ShownTool(p.tool);
    if p.projectBottom != "" then
      p.project + " + " + p.projectBottom + " | " + p.layout + " | " + tool + " + " + ShownTool(p.toolBottom)
    else
      p.project + " | " + p.layout + " | " + tool
  }

  /** The three '|'-separated columns a summary is made of. */
  function SummaryColumns(p: Preset): seq<string> {
    if p.projectBottom != "" then
      [p.project + " + " + p.projectBottom + " ",
       " " + p.layout + " ",
       " " + ShownTool(p.tool) + " + " + ShownTool(p.toolBottom)]
    else
      [p.project + " ", " " + p.layout + " ", " " + ShownTool(p.tool)]
  }

  /** None of the preset's displayed fields holds a '|'. */
  predicate NoBar(p: Preset) {
    '|' !in p.project && '|' !in p.projectBottom && '|' !in p.layout &&
    '|' !in p.tool && '|' !in p.toolBottom
  }

  /**
   * A summary reads back into its columns: project(s), layout, tool(s), with
   * the split form exactly when `projectBottom` is non-empty.
   */
  lemma {:induction false} SummaryReadsBack(p: Preset)
    requires NoBar(p)
    ensures Split(Summary(p), '|') == SummaryColumns(p)
  {
    var cols := SummaryColumns(p);
    SummaryJoinsColumns(p);
    ThreeColumns(cols[0], cols[1], cols[2]);
  }

  /** A summary is its three columns joined by bars, none of which holds a bar. */
  lemma SummaryJoinsColumns(p: Preset)
    requires NoBar(p)
    ensures var cols := SummaryColumns(p);
      Summary(p) == cols[0] + "|" + cols[1] + "|" + cols[2] && cols == [cols[0], cols[1], cols[2]] &&
      '|' !in cols[0] && '|' !in cols[1] && '|' !in cols[2]
  {
    var tool, toolBottom := ShownTool(p.tool), ShownTool(p.toolBottom);
    assert '|' !in tool && '|' !in toolBottom;
    BarFree3(" ", p.layout, " ");
    if p.projectBottom != "" {
      BarFree3(p.project, " + ", p.projectBottom + " ");
      BarFree3(" " + tool, " + ", toolBottom);
    } else {
      BarFree3(p.project, " ", "");
      BarFree3(" ", tool, "");
    }
  }

  /** Three bar-free columns joined by bars split back into those columns. */
  lemma ThreeColumns(a: string, b: string, c: string)
    requires '|' !in a && '|' !in b && '|' !in c
    ensures Split(a + "|" + b + "|" + c, '|') == [a, b, c]
  {
    Join3(a, b, c, '|');
    SplitJoin([a, b, c], '|');
  }

  lemma BarFree3(a: string, b: string, c: string)
    requires '|' !in a && '|' !in b && '|' !in c
    ensures '|' !in a + b + c
  {
  }

  lemma Join3(a: string, b: string, c: string, sep: char)
    ensures Join([a, b, c], sep) == a + [sep] + b + [sep] + c
  {
    assert [a, b, c][1..] == [b, c];
    assert [b, c][1..] == [c];
    assert Join([c], sep) == c;
    assert Join([b, c], sep) == b + [sep] + c;
  }

  /** The bottom tool never shows when there is no bottom project. */
  lemma SummaryIgnoresToolBottom(p: Preset, toolBottom: string)
    requires p.projectBottom == ""
    ensures Summary(p.(toolBottom := toolBottom)) == Summary(p)
  {
  }

  /** An empty tool (and, in split form, an empty bottom tool) shows as "None". */
  lemma SummaryShowsNone(p: Preset)
    requires NoBar(p)
    ensures p.tool == "" && p.projectBottom == "" ==> SummaryColumns(p)[2] == " None"
    ensures p.toolBottom == "" && p.projectBottom != "" ==>
              SummaryColumns(p)[2] == " " + ShownTool(p.tool) + " + None"
  {
  }
}
