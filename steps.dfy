/**
 * Step enumeration and numbering, the built-in grid layouts and their
 * "ColsxRows" identifiers, the tool list, the list items' titles and the
 * default-cursor rules of the list builders.
 */
module Steps {
  import opened Text
  import Config
  import LayoutCodec

  /**
   * The wizard's steps in declaration order (the `iota` order). Mode,
   * ProjectBottom and ToolBottom are the split-workspace steps.
   */
  datatype Step =
    | StepPreset
    | StepMode
    | StepProject
    | StepProjectBottom
    | StepLayout
    | StepTool
    | StepToolBottom
    | StepConfirm
    | StepDone

  /** The integer value of a step, which the `>` comparisons of the wizard use. */
  function Rank(s: Step): nat {
    match s
    case StepPreset => 0
    case StepMode => 1
    case StepProject => 2
    case StepProjectBottom => 3
    case StepLayout => 4
    case StepTool => 5
    case StepToolBottom => 6
    case StepConfirm => 7
    case StepDone => 8
  }

  lemma RankInjective(a: Step, b: Step)
    requires Rank(a) == Rank(b)
    ensures a == b
  {
  }

  /** stepTitle: only the five single-workspace steps have a title. */
  function StepTitle(s: Step): (r: string)
    ensures r != "" <==> s in {StepPreset, StepProject, StepLayout, StepTool, StepConfirm}
  {
    match s
    case StepPreset => "Choose a Preset"
    case StepProject => "Select Project"
    case StepLayout => "Select Layout"
    case StepTool => "Select AI Tool"
    case StepConfirm => "Confirm & Launch"
    case _ => ""
  }

  /**
   * stepNumber: the position shown as "Step n/total". The total is always 4;
   * Project, Layout, Tool and Confirm are numbered 1 to 4, every other step 0.
   * Whether presets exist does not matter.
   */
  function StepNumber(s: Step, hasPresets: bool): (r: (int, int))
    ensures r.1 == 4 && 0 <= r.0 <= r.1
    ensures r.0 != 0 <==> s in {StepProject, StepLayout, StepTool, StepConfirm}
  {
    match s
    case StepProject => (1, 4)
    case StepLayout => (2, 4)
    case StepTool => (3, 4)
    case StepConfirm => (4, 4)
    case _ => (0, 4)
  }

  /** The numbered steps are numbered in step order, one apart. */
  lemma StepNumberFollowsOrder(a: Step, b: Step, hasPresets: bool)
    requires StepNumber(a, hasPresets).0 != 0 && StepNumber(b, hasPresets).0 != 0
    ensures Rank(a) < Rank(b) <==> StepNumber(a, hasPresets).0 < StepNumber(b, hasPresets).0
    ensures StepNumber(a, hasPresets) == StepNumber(a, !hasPresets)
  {
  }

  // ---------------------------------------------------------------------------
  // Layouts

  /** A uniform grid: Cols columns in each of Rows rows. */
  datatype Layout = Layout(name: string, cols: int, rows: int, desc: string)

  /** Layout.ID: "<Cols>x<Rows>"; the first 'x' separates the two counts' decimal texts. */
  function ID(l: Layout): (r: string)
    ensures 'x' in r && r[..IndexOf(r, 'x')] == Itoa(l.cols) && r[IndexOf(r, 'x') + 1..] == Itoa(l.rows)
  {
    ItoaChars(l.cols);
    IndexOfConcat(Itoa(l.cols), 'x', Itoa(l.rows));
    var r := Itoa(l.cols) + "x" + Itoa(l.rows);
    assert r[..|Itoa(l.cols)|] == Itoa(l.cols) && r[|Itoa(l.cols)| + 1..] == Itoa(l.rows);
    r
  }

  const Layouts: seq<Layout> := [
    Layout("2 terminals", 2, 1, "[ ][ ]"),
    Layout("4 terminals", 2, 2, "[ ][ ] / [ ][ ]"),
    Layout("6 terminals", 3, 2, "[ ][ ][ ] / [ ][ ][ ]"),
    Layout("8 terminals", 4, 2, "[ ][ ][ ][ ] / [ ][ ][ ][ ]")
  ]

  predicate Int64Grid(l: Layout) {
    MinInt64 <= l.cols <= MaxInt64 && MinInt64 <= l.rows <= MaxInt64
  }

  /** The cols and rows can be read back from the identifier: no two grids share one. */
  lemma IDInjective(a: Layout, b: Layout)
    requires Int64Grid(a) && Int64Grid(b)
    requires ID(a) == ID(b)
    ensures a.cols == b.cols && a.rows == b.rows
  {
    ItoaChars(a.cols);
    ItoaChars(b.cols);
    assert 'x' !in Itoa(a.cols) && 'x' !in Itoa(b.cols);
    IndexOfConcat(Itoa(a.cols), 'x', Itoa(a.rows));
    IndexOfConcat(Itoa(b.cols), 'x', Itoa(b.rows));
    var id := ID(a);
    var k := IndexOf(id, 'x');
    assert id[..k] == Itoa(a.cols) && id[..k] == Itoa(b.cols);
    assert id[k + 1..] == Itoa(a.rows) && id[k + 1..] == Itoa(b.rows);
    ItoaInjective(a.cols, b.cols);
    ItoaInjective(a.rows, b.rows);
  }

  /**
   * A grid's identifier migrates to the comma format as Rows copies of Cols:
   * "2x1" becomes "2", "3x2" becomes "3,3".
   */
  lemma IDMigrates(l: Layout)
    requires Int64Grid(l) && l.rows >= 0
    ensures LayoutCodec.LegacyConverted(ID(l)) == Some(LayoutCodec.RowColsID(LayoutCodec.Repeat(l.cols, l.rows)))
  {
    LayoutCodec.LegacyExpands(l.cols, l.rows);
  }

  /** A layout opens Cols x Rows terminals, says so in its name, and draws that grid. */
  predicate Consistent(l: Layout) {
    l.rows >= 0 &&
    l.name == Itoa(l.cols * l.rows) + " terminals" &&
    l.desc == LayoutCodec.GenerateDesc(LayoutCodec.Repeat(l.cols, l.rows)) &&
    1 <= l.cols * l.rows <= LayoutCodec.MaxTerminals
  }

  /** Every built-in layout is consistent. */
  lemma BuiltinLayoutsConsistent(i: nat)
    requires i < |Layouts|
    ensures Consistent(Layouts[i])
  {
    if i == 0 {
      TwoByOneConsistent();
    } else if i == 1 {
      TwoByTwoConsistent();
    } else if i == 2 {
      ThreeByTwoConsistent();
    } else {
      FourByTwoConsistent();
    }
  }

  lemma TwoByOneConsistent()
    ensures Consistent(Layouts[0])
  {
    OneRowDesc(2);
    RowDescCells(2);
    assert Itoa(2) == "2" by { assert NatDigits(2) == [DigitChar(2)]; }
  }

  lemma TwoByTwoConsistent()
    ensures Consistent(Layouts[1])
  {
    TwoRowDesc(2);
    RowDescCells(2);
    assert Itoa(4) == "4" by { assert NatDigits(4) == [DigitChar(4)]; }
  }

  lemma ThreeByTwoConsistent()
    ensures Consistent(Layouts[2])
  {
    TwoRowDesc(3);
    RowDescCells(3);
    assert Itoa(6) == "6" by { assert NatDigits(6) == [DigitChar(6)]; }
  }

  lemma FourByTwoConsistent()
    ensures Consistent(Layouts[3])
  {
    TwoRowDesc(4);
    RowDescCells(4);
    assert Itoa(8) == "8" by { assert NatDigits(8) == [DigitChar(8)]; }
  }

  lemma RowDescCells(n: int)
    requires 1 <= n <= 4
    ensures n == 1 ==> LayoutCodec.RowDesc(n) == "[ ]"
    ensures n == 2 ==> LayoutCodec.RowDesc(n) == "[ ][ ]"
    ensures n == 3 ==> LayoutCodec.RowDesc(n) == "[ ][ ][ ]"
    ensures n == 4 ==> LayoutCodec.RowDesc(n) == "[ ][ ][ ][ ]"
  {
    assert LayoutCodec.RowDesc(0) == "";
    assert LayoutCodec.RowDesc(1) == "[ ]";
    assert LayoutCodec.RowDesc(2) == "[ ][ ]";
    assert LayoutCodec.RowDesc(3) == "[ ][ ][ ]";
  }

  lemma OneRowDesc(c: int)
    ensures LayoutCodec.GenerateDesc(LayoutCodec.Repeat(c, 1)) == LayoutCodec.RowDesc(c)
  {
    assert LayoutCodec.Repeat(c, 1) == [c];
  }

  lemma TwoRowDesc(c: int)
    ensures LayoutCodec.GenerateDesc(LayoutCodec.Repeat(c, 2)) == LayoutCodec.RowDesc(c) + " / " + LayoutCodec.RowDesc(c)
  {
    assert LayoutCodec.Repeat(c, 2) == [c, c];
    assert [c, c][1..] == [c];
  }

  // ---------------------------------------------------------------------------
  // Tools

  /** A tool: its display name, the shell command it runs ("" for none), and whether the user added it. */
  datatype Tool = Tool(name: string, command: string, custom: bool)

  const BuiltinTools: seq<Tool> := [
    Tool("None - just terminals", "", false),
    Tool("Claude Code", "claude", false),
    Tool("Claude Code (Chrome)", "claude --chat-mode browser", false),
    Tool("Codex", "codex", false),
    Tool("OpenCode", "opencode", false)
  ]

  /**
   * AllTools: a copy of the built-in tools, in order, then one custom tool
   * per configured command, in the order the map is visited.
   */
  method AllTools(cfg: Config.Config) returns (tools: seq<Tool>)
    ensures |tools| == |BuiltinTools| + |cfg.customCommands|
    ensures tools[..|BuiltinTools|] == BuiltinTools
    ensures forall i :: 0 <= i < |cfg.customCommands| ==>
              tools[|BuiltinTools| + i] == Tool(cfg.customCommands[i].0, cfg.customCommands[i].1, true)
  {
    tools := BuiltinTools;
    for i := 0 to |cfg.customCommands|
      invariant |tools| == |BuiltinTools| + i
      invariant tools[..|BuiltinTools|] == BuiltinTools
      invariant forall j :: 0 <= j < i ==>
                  tools[|BuiltinTools| + j] == Tool(cfg.customCommands[j].0, cfg.customCommands[j].1, true)
    {
      var (name, cmd) := cfg.customCommands[i];
      tools := tools + [Tool(name, cmd, true)];
    }
  }

  /** toolItem.Title: the name, marked " (custom)" exactly for user-added tools. */
  function ToolTitle(t: Tool): (r: string)
    ensures |r| >= |t.name| && r[..|t.name|] == t.name
    ensures t.custom <==> |r| > |t.name|
    ensures t.custom ==> r[|t.name|..] == " (custom)"
  {
    if t.custom then t.name + " (custom)" else t.name
  }

  /** toolItem.Description: the command, or "Just open terminals" when there is none. */
  function ToolDescription(t: Tool): (r: string)
    ensures r != ""
    ensures t.command != "" ==> r == t.command
    ensures r == "Just open terminals" <==> t.command == "" || t.command == "Just open terminals"
  {
    if t.command == "" then "Just open terminals" else t.command
  }

  // ---------------------------------------------------------------------------
  // List items and builders

  /** A directory the wizard offers as a project. */
  datatype Project = Project(name: string, path: string)

  datatype Item =
    | PresetItem(preset: Config.Preset, isNew: bool)
    | ProjectItem(project: Project)
    | LayoutItem(layout: Layout)
    | ToolItem(tool: Tool)
    | ConfirmItem(name: string, desc: string)

  /** A list as the builders leave it: its items, the cursor, and whether filtering is on. */
  datatype Picker = Picker(items: seq<Item>, cursor: nat, filtering: bool)

  const NoPreset: Config.Preset := Config.Preset("", "", "", "", "", "")

  /** presetItem.Title: the new-workspace entry, or the preset's own name (also what filtering matches). */
  function PresetTitle(item: Item): (r: string)
    requires item.PresetItem?
    ensures !item.isNew ==> r == item.preset.name
    ensures r == "New workspace..." <==> item.isNew || item.preset.name == "New workspace..."
  {
    if item.isNew then "New workspace..." else item.preset.name
  }

  /**
   * presetItem.Description: a saved preset is described by its summary,
   * which opens with its project; only such a description holds a '|'.
   */
  function PresetDescription(item: Item): (r: string)
    requires item.PresetItem?
    ensures !item.isNew ==> item.preset.project + " " <= r
    ensures '|' in r <==> !item.isNew
  {
    if item.isNew then "Start fresh — pick project, layout, tool" else Config.Summary(item.preset)
  }

  /**
   * newPresetList: "New workspace..." first, then the presets in order; the
   * cursor starts on the first preset when there is one; filtering only for
   * more than five presets.
   */
  method NewPresetList(presets: seq<Config.Preset>) returns (l: Picker)
    ensures |l.items| == |presets| + 1
    ensures l.items[0] == PresetItem(NoPreset, true)
    ensures forall i :: 0 <= i < |presets| ==> l.items[i + 1] == PresetItem(presets[i], false)
    ensures l.cursor == (if |presets| > 0 then 1 else 0) && l.cursor < |l.items|
    ensures l.filtering <==> |presets| > 5
  {
    var items := [PresetItem(NoPreset, true)];
    for i := 0 to |presets|
      invariant |items| == i + 1
      invariant items[0] == PresetItem(NoPreset, true)
      invariant forall j :: 0 <= j < i ==> items[j + 1] == PresetItem(presets[j], false)
    {
      items := items + [PresetItem(presets[i], false)];
    }
    var cursor := 0;
    if |presets| > 0 {
      cursor := 1;
    }
    l := Picker(items, cursor, |presets| > 5);
  }

  /** newProjectList: one item per project, in order, cursor on the first. */
  method NewProjectList(projects: seq<Project>) returns (l: Picker)
    ensures |l.items| == |projects| && l.cursor == 0 && l.filtering
    ensures forall i :: 0 <= i < |projects| ==> l.items[i] == ProjectItem(projects[i])
  {
    var items: seq<Item> := [];
    for i := 0 to |projects|
      invariant |items| == i
      invariant forall j :: 0 <= j < i ==> items[j] == ProjectItem(projects[j])
    {
      items := items + [ProjectItem(projects[i])];
    }
    l := Picker(items, 0, true);
  }

  /**
   * The default-cursor rule of the layout and tool lists: the last index whose
   * key equals the default, or 0 when none does.
   */
  predicate IsDefaultCursor(keys: seq<string>, default: string, cursor: nat) {
    if default in keys then
      cursor < |keys| && keys[cursor] == default && default !in keys[cursor + 1..]
    else
      cursor == 0
  }

  /** The rule picks exactly one cursor. */
  lemma DefaultCursorUnique(keys: seq<string>, default: string, c1: nat, c2: nat)
    requires IsDefaultCursor(keys, default, c1) && IsDefaultCursor(keys, default, c2)
    ensures c1 == c2
  {
  }

  function LayoutIDs(ls: seq<Layout>): (r: seq<string>)
    ensures |r| == |ls|
  {
    if ls == [] then [] else [ID(ls[0])] + LayoutIDs(ls[1..])
  }

  /** The i-th key of the layout list is the i-th layout's identifier. */
  lemma {:induction false} LayoutIDsAt(ls: seq<Layout>, i: nat)
    requires i < |ls|
    ensures LayoutIDs(ls)[i] == ID(ls[i])
  {
    if i > 0 {
      LayoutIDsAt(ls[1..], i - 1);
    }
  }

  function ToolNames(ts: seq<Tool>): (r: seq<string>)
    ensures |r| == |ts|
  {
    if ts == [] then [] else [ts[0].name] + ToolNames(ts[1..])
  }

  /** The i-th key of the tool list is the i-th tool's name. */
  lemma {:induction false} ToolNamesAt(ts: seq<Tool>, i: nat)
    requires i < |ts|
    ensures ToolNames(ts)[i] == ts[i].name
  {
    if i > 0 {
      ToolNamesAt(ts[1..], i - 1);
    }
  }

  lemma DefaultCursorStep(keys: seq<string>, default: string, cursor: nat, i: nat)
    requires i < |keys|
    requires IsDefaultCursor(keys[..i], default, cursor)
    ensures IsDefaultCursor(keys[..i + 1], default, if keys[i] == default then i else cursor)
  {
    var next := keys[..i + 1];
    assert next[..i] == keys[..i];
    if keys[i] == default {
      assert next[i] == default;
      assert next[i + 1..] == [];
    } else if default in keys[..i] {
      assert next[cursor + 1..] == keys[..i][cursor + 1..] + [keys[i]];
    } else {
      assert default !in next;
    }
  }

  /** newLayoutList: the built-in layouts in order; the cursor on the last one whose ID is the default. */
  method NewLayoutList(defaultLayout: string) returns (l: Picker)
    ensures |l.items| == |Layouts| && !l.filtering
    ensures forall i :: 0 <= i < |Layouts| ==> l.items[i] == LayoutItem(Layouts[i])
    ensures IsDefaultCursor(LayoutIDs(Layouts), defaultLayout, l.cursor)
  {
    var layouts := Layouts;
    var keys := LayoutIDs(layouts);
    var items: seq<Item> := [];
    var defaultIdx := 0;
    for i := 0 to |layouts|
      invariant |items| == i
      invariant forall j :: 0 <= j < i ==> items[j] == LayoutItem(layouts[j])
      invariant IsDefaultCursor(keys[..i], defaultLayout, defaultIdx)
    {
      items := items + [LayoutItem(layouts[i])];
      DefaultCursorStep(keys, defaultLayout, defaultIdx, i);
      if keys[i] == defaultLayout {
        defaultIdx := i;
      }
    }
    assert keys[..|layouts|] == keys;
    l := Picker(items, defaultIdx, false);
  }

  /** newToolList: the tools in order; the cursor on the last one named like the default. */
  method NewToolList(tools: seq<Tool>, defaultTool: string) returns (l: Picker)
    ensures |l.items| == |tools| && !l.filtering
    ensures forall i :: 0 <= i < |tools| ==> l.items[i] == ToolItem(tools[i])
    ensures IsDefaultCursor(ToolNames(tools), defaultTool, l.cursor)
  {
    var keys := ToolNames(tools);
    var items: seq<Item> := [];
    var defaultIdx := 0;
    for i := 0 to |tools|
      invariant |items| == i
      invariant forall j :: 0 <= j < i ==> items[j] == ToolItem(tools[j])
      invariant IsDefaultCursor(keys[..i], defaultTool, defaultIdx)
    {
      items := items + [ToolItem(tools[i])];
      DefaultCursorStep(keys, defaultTool, defaultIdx, i);
      if keys[i] == defaultTool {
        defaultIdx := i;
      }
    }
    assert keys[..|tools|] == keys;
    l := Picker(items, defaultIdx, false);
  }

  /** newConfirmList: "Launch" first, "Save as preset & Launch" second. */
  const ConfirmList: Picker := Picker(
    [ConfirmItem("Launch", "Open terminals now"),
     ConfirmItem("Save as preset & Launch", "Save this combo for quick access next time")],
    0, false)
}
