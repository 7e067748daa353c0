/**
 * The workspace wizard: a step machine over the nine steps
 * Preset, Mode, Project, ProjectBottom, Layout, Tool, ToolBottom, Confirm, Done,
 * with two modal sub-flows (naming a preset, typing a custom layout).
 *
 * The Go model is a value: each transition receives a copy, updates it field
 * by field and returns it. Every transition is specified by a function on a
 * `State` value, and implemented by a method over that value which is proved
 * to produce the function's result and to keep the state well formed. The
 * list widget is not modelled: the item under the cursor is an input of
 * `Advance`.
 */
module Wizard {
  import opened Text
  import Config
  import LayoutCodec
  import opened Steps

  /** The item under the cursor when Enter is pressed, one kind per list. */
  datatype Choice =
    | PresetChoice(preset: Config.Preset, isNew: bool)
    | ModeChoice(split: bool)
    | ProjectChoice(project: Project)
    | LayoutChoice(layout: LayoutCodec.GridLayout)
    | ToolChoice(tool: Tool)
    | ConfirmChoice(name: string)

  /** The list shown at each step holds items of one kind; any other kind would fail the type assertion. */
  predicate Fits(s: Step, c: Choice) {
    match s
    case StepPreset => c.PresetChoice?
    case StepMode => c.ModeChoice?
    case StepProject => c.ProjectChoice?
    case StepProjectBottom => c.ProjectChoice?
    case StepLayout => c.LayoutChoice?
    case StepTool => c.ToolChoice?
    case StepToolBottom => c.ToolChoice?
    case StepConfirm => c.ConfirmChoice?
    case StepDone => true
  }

  /** A key reaching a text input: Enter, Esc, or any other key, which leaves the input holding `value`. */
  datatype Key = Enter | Esc | Typed(value: string)

  const NoProject: Project := Project("", "")
  const NoLayout: LayoutCodec.GridLayout := LayoutCodec.GridLayout("", [], "")
  const NoTool: Tool := Tool("", "", false)

  /** What the wizard is given when it starts and never changes: the projects, tools and layouts. */
  datatype Env = Env(
    projects: seq<Project>,
    cwd: string,
    tools: seq<Tool>,
    layouts: seq<LayoutCodec.GridLayout>,
    splitLayouts: seq<LayoutCodec.GridLayout>)

  /** What the user has picked so far. */
  datatype Selection = Selection(
    preset: Option<Config.Preset>,
    project: Project,
    layout: LayoutCodec.GridLayout,
    tool: Tool,
    split: bool,
    bottomProject: Project,
    toolBottom: Tool)

  const NoSelection: Selection := Selection(None, NoProject, NoLayout, NoTool, false, NoProject, NoTool)

  /** The wizard's fields that its transitions change, as a value. */
  datatype State = State(
    step: Step,
    cancelled: bool,
    configDirty: bool,
    cfg: Config.Config,
    sel: Selection,
    namingPreset: bool,
    presetInput: string,
    enteringCustomLayout: bool,
    customLayoutInput: string)

  /**
   * What holds in every state the wizard reaches: the preset step only with
   * presets, the mode step only with two or more projects, the bottom steps
   * only in split mode, each sub-flow only at its own step, a preset picked
   * only once the wizard is done.
   */
  predicate WellFormed(env: Env, st: State) {
    (st.step == StepPreset ==> |st.cfg.presets| > 0) &&
    (st.step == StepMode ==> |env.projects| >= 2) &&
    (st.step == StepProjectBottom ==> st.sel.split) &&
    (st.step == StepToolBottom ==> st.sel.split) &&
    (st.namingPreset ==> st.step == StepConfirm || st.step == StepDone) &&
    (st.enteringCustomLayout ==> st.step == StepLayout) &&
    (st.sel.preset.Some? ==> st.step == StepDone)
  }

  // ---------------------------------------------------------------------------
  // NewModel

  /** The first step: presets if any exist, else the mode choice with two or more projects, else the project list. */
  function InitialStep(nPresets: nat, nProjects: nat): Step {
    if nPresets > 0 then StepPreset
    else if nProjects >= 2 then StepMode
    else StepProject
  }

  function Initial(env: Env, cfg: Config.Config): (st: State)
    ensures WellFormed(env, st)
    ensures st.step == StepPreset <==> |cfg.presets| > 0
    ensures st.step == StepMode <==> |cfg.presets| == 0 && |env.projects| >= 2
    ensures st.step == StepProject <==> |cfg.presets| == 0 && |env.projects| < 2
  {
    State(InitialStep(|cfg.presets|, |env.projects|), false, false, cfg, NoSelection,
          false, "", false, "")
  }

  // ---------------------------------------------------------------------------
  // Name lookups

  /** The index of the first key equal to `k`, or |keys| when there is none. */
  function FirstIndex(keys: seq<string>, k: string): (i: nat)
    ensures i <= |keys|
  {
    if keys == [] then 0
    else if keys[0] == k then 0
    else 1 + FirstIndex(keys[1..], k)
  }

  /** The first-match index: no match before it, and a match at it unless it is |keys|. */
  lemma {:induction false} FirstIndexSpec(keys: seq<string>, k: string)
    ensures var i := FirstIndex(keys, k);
      (forall j :: 0 <= j < i ==> keys[j] != k) &&
      (i < |keys| <==> k in keys) &&
      (i < |keys| ==> keys[i] == k)
  {
    if keys != [] && keys[0] != k {
      FirstIndexSpec(keys[1..], k);
      var i := FirstIndex(keys, k);
      forall j | 0 <= j < i ensures keys[j] != k {
        if j > 0 {
          assert keys[j] == keys[1..][j - 1];
        }
      }
      if k in keys {
        var j :| 0 <= j < |keys| && keys[j] == k;
        assert keys[1..][j - 1] == k;
      }
    }
  }

  /** Any index with no match before it and a match (or the end) at it is the first-match index. */
  lemma {:induction false} FirstIndexIs(keys: seq<string>, k: string, i: nat)
    requires i <= |keys| && forall j :: 0 <= j < i ==> keys[j] != k
    requires i == |keys| || keys[i] == k
    ensures i == FirstIndex(keys, k)
  {
    if keys != [] && keys[0] != k {
      forall j | 0 <= j < i - 1 ensures keys[1..][j] != k {
        assert keys[1..][j] == keys[j + 1];
      }
      FirstIndexIs(keys[1..], k, i - 1);
    }
  }

  /** The first element whose key is `k`, or `prior` when no key is. */
  function Lookup<T>(xs: seq<T>, keys: seq<string>, k: string, prior: T): T
    requires |keys| == |xs|
  {
    var i := FirstIndex(keys, k);
    if i < |xs| then xs[i] else prior
  }

  /** One search loop of applyPreset: the first element whose key is `k`, or `prior` when the loop finds none. */
  method Find<T>(xs: seq<T>, keys: seq<string>, k: string, prior: T) returns (r: T)
    requires |keys| == |xs|
    ensures r == Lookup(xs, keys, k, prior)
  {
    r := prior;
    var i := 0;
    while i < |xs| && keys[i] != k
      invariant i <= |xs| && forall j :: 0 <= j < i ==> keys[j] != k
    {
      i := i + 1;
    }
    FirstIndexIs(keys, k, i);
    if i < |xs| {
      r := xs[i];
    }
  }

  /** A lookup finds the first element carrying the key, and keeps `prior` when no element does. */
  lemma LookupFindsFirst<T>(xs: seq<T>, keys: seq<string>, k: string, prior: T)
    requires |keys| == |xs|
    ensures k in keys ==> exists i :: 0 <= i < |xs| && keys[i] == k && Lookup(xs, keys, k, prior) == xs[i] &&
                                      forall j :: 0 <= j < i ==> keys[j] != k
    ensures k !in keys ==> Lookup(xs, keys, k, prior) == prior
  {
    FirstIndexSpec(keys, k);
  }

  function ProjectNames(ps: seq<Project>): (r: seq<string>)
    ensures |r| == |ps|
  {
    if ps == [] then [] else [ps[0].name] + ProjectNames(ps[1..])
  }

  /** The i-th key of the project list is the i-th project's name. */
  lemma {:induction false} ProjectNamesAt(ps: seq<Project>, i: nat)
    requires i < |ps|
    ensures ProjectNames(ps)[i] == ps[i].name
  {
    if i > 0 {
      ProjectNamesAt(ps[1..], i - 1);
    }
  }

  function GridIDs(ls: seq<LayoutCodec.GridLayout>): (r: seq<string>)
    ensures |r| == |ls|
  {
    if ls == [] then [] else [LayoutCodec.ID(ls[0])] + GridIDs(ls[1..])
  }

  /** The i-th key of a layout list is the i-th layout's comma identifier. */
  lemma {:induction false} GridIDsAt(ls: seq<LayoutCodec.GridLayout>, i: nat)
    requires i < |ls|
    ensures GridIDs(ls)[i] == LayoutCodec.ID(ls[i])
  {
    if i > 0 {
      GridIDsAt(ls[1..], i - 1);
    }
  }

  // ---------------------------------------------------------------------------
  // applyPreset

  /** Applying a preset never panics unless its layout is a legacy "CxR" with negative R. */
  predicate Applicable(p: Config.Preset) {
    LayoutCodec.LegacyConverted(p.layout).Some?
  }

  /**
   * applyPreset: looks the preset's names up, keeping the prior value on a
   * miss; layouts are looked up by migrated identifier, first in the regular
   * layouts and, if the selected layout still has no name, in the split
   * layouts; a bottom project turns split mode on.
   */
  function Applied(env: Env, sel: Selection, p: Config.Preset): Selection
    requires Applicable(p)
  {
    var layoutID := LayoutCodec.LegacyConverted(p.layout).value;
    var layout := Lookup(env.layouts, GridIDs(env.layouts), layoutID, sel.layout);
    var split := p.projectBottom != "";
    sel.(
      project := Lookup(env.projects, ProjectNames(env.projects), p.project, sel.project),
      layout :=
        if layout.name == "" then Lookup(env.splitLayouts, GridIDs(env.splitLayouts), layoutID, layout)
        else layout,
      tool := Lookup(env.tools, ToolNames(env.tools), p.tool, sel.tool),
      split := sel.split || split,
      bottomProject :=
        if split then Lookup(env.projects, ProjectNames(env.projects), p.projectBottom, sel.bottomProject)
        else sel.bottomProject,
      toolBottom :=
        if split then Lookup(env.tools, ToolNames(env.tools), p.toolBottom, sel.toolBottom)
        else sel.toolBottom)
  }

  /** A project lookup takes the first project with the name, or keeps `prior` when none has it. */
  lemma ProjectLookup(ps: seq<Project>, k: string, prior: Project)
    ensures var r := Lookup(ps, ProjectNames(ps), k, prior);
      (k in ProjectNames(ps) ==>
         exists i :: 0 <= i < |ps| && r == ps[i] && r.name == k && forall j :: 0 <= j < i ==> ps[j].name != k) &&
      (k !in ProjectNames(ps) ==> r == prior)
  {
    FirstIndexSpec(ProjectNames(ps), k);
    var i := FirstIndex(ProjectNames(ps), k);
    if i < |ps| {
      ProjectNamesAt(ps, i);
      forall j | 0 <= j < i ensures ps[j].name != k {
        ProjectNamesAt(ps, j);
      }
    }
  }

  /** A tool lookup takes the first tool with the name, or keeps `prior` when none has it. */
  lemma ToolLookup(ts: seq<Tool>, k: string, prior: Tool)
    ensures var r := Lookup(ts, ToolNames(ts), k, prior);
      (k in ToolNames(ts) ==>
         exists i :: 0 <= i < |ts| && r == ts[i] && r.name == k && forall j :: 0 <= j < i ==> ts[j].name != k) &&
      (k !in ToolNames(ts) ==> r == prior)
  {
    FirstIndexSpec(ToolNames(ts), k);
    var i := FirstIndex(ToolNames(ts), k);
    if i < |ts| {
      ToolNamesAt(ts, i);
      forall j | 0 <= j < i ensures ts[j].name != k {
        ToolNamesAt(ts, j);
      }
    }
  }

  /**
   * The project and tool are the first ones carrying the preset's names, and
   * stay as they were when no name matches.
   */
  lemma AppliedTakesFirstMatch(env: Env, sel: Selection, p: Config.Preset)
    requires Applicable(p)
    ensures var r := Applied(env, sel, p);
      (p.project in ProjectNames(env.projects) ==>
         exists i :: 0 <= i < |env.projects| && r.project == env.projects[i] && r.project.name == p.project &&
                     forall j :: 0 <= j < i ==> env.projects[j].name != p.project) &&
      (p.project !in ProjectNames(env.projects) ==> r.project == sel.project) &&
      (p.tool in ToolNames(env.tools) ==>
         exists i :: 0 <= i < |env.tools| && r.tool == env.tools[i] && r.tool.name == p.tool &&
                     forall j :: 0 <= j < i ==> env.tools[j].name != p.tool) &&
      (p.tool !in ToolNames(env.tools) ==> r.tool == sel.tool)
  {
    ProjectLookup(env.projects, p.project, sel.project);
    ToolLookup(env.tools, p.tool, sel.tool);
  }

  /**
   * With a bottom project, split mode is on and the bottom project and bottom
   * tool are the first ones carrying the preset's bottom names; each stays as
   * it was when no name matches.
   */
  lemma AppliedBottomFirstMatch(env: Env, sel: Selection, p: Config.Preset)
    requires Applicable(p) && p.projectBottom != ""
    ensures var r := Applied(env, sel, p);
      r.split &&
      (p.projectBottom in ProjectNames(env.projects) ==>
         exists i :: 0 <= i < |env.projects| && r.bottomProject == env.projects[i] &&
                     r.bottomProject.name == p.projectBottom &&
                     forall j :: 0 <= j < i ==> env.projects[j].name != p.projectBottom) &&
      (p.projectBottom !in ProjectNames(env.projects) ==> r.bottomProject == sel.bottomProject) &&
      (p.toolBottom in ToolNames(env.tools) ==>
         exists i :: 0 <= i < |env.tools| && r.toolBottom == env.tools[i] && r.toolBottom.name == p.toolBottom &&
                     forall j :: 0 <= j < i ==> env.tools[j].name != p.toolBottom) &&
      (p.toolBottom !in ToolNames(env.tools) ==> r.toolBottom == sel.toolBottom)
  {
    ProjectLookup(env.projects, p.projectBottom, sel.bottomProject);
    ToolLookup(env.tools, p.toolBottom, sel.toolBottom);
  }

  /**
   * A hit in the regular layouts takes the first layout with the migrated
   * identifier; that layout is kept unless it has no name, in which case the
   * split layouts are searched with it as the fallback.
   */
  lemma AppliedTakesFirstLayout(env: Env, sel: Selection, p: Config.Preset)
    requires Applicable(p)
    requires LayoutCodec.LegacyConverted(p.layout).value in GridIDs(env.layouts)
    ensures var id, r := LayoutCodec.LegacyConverted(p.layout).value, Applied(env, sel, p);
      exists i :: 0 <= i < |env.layouts| && LayoutCodec.ID(env.layouts[i]) == id &&
                  (forall j :: 0 <= j < i ==> LayoutCodec.ID(env.layouts[j]) != id) &&
                  (env.layouts[i].name != "" ==> r.layout == env.layouts[i]) &&
                  (env.layouts[i].name == "" ==> r.layout == env.layouts[i] || r.layout in env.splitLayouts)
  {
    var id := LayoutCodec.LegacyConverted(p.layout).value;
    var ids := GridIDs(env.layouts);
    FirstIndexSpec(ids, id);
    var i := FirstIndex(ids, id);
    GridIDsAt(env.layouts, i);
    forall j | 0 <= j < i ensures LayoutCodec.ID(env.layouts[j]) != id {
      GridIDsAt(env.layouts, j);
    }
    FirstIndexSpec(GridIDs(env.splitLayouts), id);
    var k := FirstIndex(GridIDs(env.splitLayouts), id);
    assert k < |env.splitLayouts| ==> env.splitLayouts[k] in env.splitLayouts;
  }

  /**
   * Split mode ends up on exactly when the preset has a bottom project or split
   * mode was already on: a split choice made earlier in the session survives.
   * Without a bottom project the bottom selections are untouched.
   */
  lemma AppliedSplitMode(env: Env, sel: Selection, p: Config.Preset)
    requires Applicable(p)
    ensures Applied(env, sel, p).split <==> sel.split || p.projectBottom != ""
    ensures p.projectBottom == "" ==>
              Applied(env, sel, p).bottomProject == sel.bottomProject &&
              Applied(env, sel, p).toolBottom == sel.toolBottom
  {
  }

  /** A layout already selected by name blocks the split-layout search: a miss in the regular layouts keeps it. */
  lemma AppliedKeepsNamedLayout(env: Env, sel: Selection, p: Config.Preset)
    requires Applicable(p) && sel.layout.name != ""
    requires LayoutCodec.LegacyConverted(p.layout).value !in GridIDs(env.layouts)
    ensures Applied(env, sel, p).layout == sel.layout
  {
    FirstIndexSpec(GridIDs(env.layouts), LayoutCodec.LegacyConverted(p.layout).value);
  }

  /** With no layout selected yet, a regular-layout miss falls through to the first split layout with that ID. */
  lemma AppliedFindsSplitLayout(env: Env, sel: Selection, p: Config.Preset)
    requires Applicable(p) && sel.layout == NoLayout
    requires LayoutCodec.LegacyConverted(p.layout).value !in GridIDs(env.layouts)
    requires LayoutCodec.LegacyConverted(p.layout).value in GridIDs(env.splitLayouts)
    ensures LayoutCodec.ID(Applied(env, sel, p).layout) == LayoutCodec.LegacyConverted(p.layout).value
    ensures Applied(env, sel, p).layout in env.splitLayouts
  {
    var id := LayoutCodec.LegacyConverted(p.layout).value;
    FirstIndexSpec(GridIDs(env.layouts), id);
    FirstIndexSpec(GridIDs(env.splitLayouts), id);
    GridIDsAt(env.splitLayouts, FirstIndex(GridIDs(env.splitLayouts), id));
  }

  // ---------------------------------------------------------------------------
  // advance

  /** advance can run: the item fits the list, and a preset to apply does not make it panic. */
  predicate CanAdvance(st: State, c: Choice) {
    Fits(st.step, c) &&
    (st.step == StepPreset && !c.isNew ==> Applicable(c.preset))
  }

  /** advance: Enter on the selected item (None when the list is empty or filtered to nothing). */
  function Advanced(env: Env, st: State, selected: Option<Choice>): State
    requires selected.Some? ==> CanAdvance(st, selected.value)
  {
    if selected.None? then st
    else
      var c := selected.value;
      match st.step
      case StepPreset =>
        if c.isNew then st.(step := if |env.projects| >= 2 then StepMode else StepProject)
        else st.(sel := Applied(env, st.sel.(preset := Some(c.preset)), c.preset), step := StepDone)
      case StepMode =>
        st.(sel := st.sel.(split := c.split), step := StepProject)
      case StepProject =>
        st.(sel := st.sel.(project := c.project),
            step := if st.sel.split then StepProjectBottom else StepLayout)
      case StepProjectBottom =>
        st.(sel := st.sel.(bottomProject := c.project), step := StepLayout)
      case StepLayout =>
        if c.layout.name == "Custom..." then st.(enteringCustomLayout := true)
        else st.(sel := st.sel.(layout := c.layout), step := StepTool)
      case StepTool =>
        st.(sel := st.sel.(tool := c.tool),
            step := if st.sel.split then StepToolBottom else StepConfirm)
      case StepToolBottom =>
        st.(sel := st.sel.(toolBottom := c.tool), step := StepConfirm)
      case StepConfirm =>
        if c.name == "Launch" then st.(step := StepDone) else st.(namingPreset := true)
      case StepDone => st
  }

  /** advance ends the program exactly when it reaches Done: a saved preset picked, or "Launch". */
  predicate AdvanceQuits(env: Env, st: State, selected: Option<Choice>)
    requires selected.Some? ==> CanAdvance(st, selected.value)
  {
    st.step != StepDone && Advanced(env, st, selected).step == StepDone
  }

  lemma AdvancePreservesWellFormed(env: Env, st: State, selected: Option<Choice>)
    requires WellFormed(env, st) && !st.namingPreset && !st.enteringCustomLayout
    requires selected.Some? ==> CanAdvance(st, selected.value)
    ensures WellFormed(env, Advanced(env, st, selected))
  {
    if selected.Some? {
      match st.step
      case StepPreset =>
      case StepMode =>
      case StepProject =>
      case StepProjectBottom =>
      case StepLayout =>
      case StepTool =>
      case StepToolBottom =>
      case StepConfirm =>
      case StepDone =>
    }
  }

  /**
   * advance never moves backwards, and it stays on the same step only for an
   * empty list, the "Custom..." layout, "Save as preset & Launch", or at Done.
   */
  lemma AdvanceMovesForward(env: Env, st: State, selected: Option<Choice>)
    requires selected.Some? ==> CanAdvance(st, selected.value)
    ensures Rank(Advanced(env, st, selected).step) >= Rank(st.step)
    ensures Advanced(env, st, selected).step == st.step <==>
              selected.None? || st.step == StepDone ||
              (st.step == StepLayout && selected.value.layout.name == "Custom...") ||
              (st.step == StepConfirm && selected.value.name != "Launch")
  {
    if selected.Some? {
      match st.step
      case StepPreset =>
      case StepMode =>
      case StepProject =>
      case StepProjectBottom =>
      case StepLayout =>
      case StepTool =>
      case StepToolBottom =>
      case StepConfirm =>
      case StepDone =>
    }
  }

  /**
   * advance only chooses: the configuration, the dirty and cancelled flags
   * and the text inputs are left as they were.
   */
  lemma AdvanceOnlyChooses(env: Env, st: State, selected: Option<Choice>)
    requires selected.Some? ==> CanAdvance(st, selected.value)
    ensures var r := Advanced(env, st, selected);
      r.cfg == st.cfg && r.configDirty == st.configDirty && r.cancelled == st.cancelled &&
      r.presetInput == st.presetInput && r.customLayoutInput == st.customLayoutInput
  {
    if selected.Some? {
      match st.step
      case StepPreset =>
      case StepMode =>
      case StepProject =>
      case StepProjectBottom =>
      case StepLayout =>
      case StepTool =>
      case StepToolBottom =>
      case StepConfirm =>
      case StepDone =>
    }
  }

  // ---------------------------------------------------------------------------
  // goBack

  /** Where Esc leads from each step; None means the wizard is cancelled. */
  function Backward(s: Step, split: bool, nProjects: nat, hasPresets: bool): Option<Step> {
    match s
    case StepPreset => None
    case StepMode => if hasPresets then Some(StepPreset) else None
    case StepProject =>
      if nProjects >= 2 then Some(StepMode)
      else if hasPresets then Some(StepPreset)
      else None
    case StepProjectBottom => Some(StepProject)
    case StepLayout => if split then Some(StepProjectBottom) else Some(StepProject)
    case StepTool => Some(StepLayout)
    case StepToolBottom => Some(StepTool)
    case StepConfirm => if split then Some(StepToolBottom) else Some(StepTool)
    case StepDone => Some(StepDone)
  }

  /** goBack ends the program exactly when it cancels. */
  predicate BackQuits(env: Env, st: State) {
    Backward(st.step, st.sel.split, |env.projects|, |st.cfg.presets| > 0).None?
  }

  /** goBack: move to the previous step, or set the cancelled flag. */
  function GoneBack(env: Env, st: State): State {
    match Backward(st.step, st.sel.split, |env.projects|, |st.cfg.presets| > 0)
    case None => st.(cancelled := true)
    case Some(t) => st.(step := t)
  }

  lemma GoBackPreservesWellFormed(env: Env, st: State)
    requires WellFormed(env, st) && !st.namingPreset && !st.enteringCustomLayout
    ensures WellFormed(env, GoneBack(env, st))
  {
  }

  /** goBack moves strictly backwards unless it cancels or the wizard is Done. */
  lemma GoBackMovesBackward(env: Env, st: State)
    requires st.step != StepDone && !BackQuits(env, st)
    ensures Rank(GoneBack(env, st).step) < Rank(st.step)
  {
  }

  /** At the step the wizard starts on, Esc cancels. */
  lemma BackFromInitialCancels(env: Env, cfg: Config.Config)
    ensures BackQuits(env, Initial(env, cfg))
  {
  }

  /**
   * Going back undoes going forward: from every step between Mode and
   * ToolBottom, an advance that changes the step followed by goBack returns to
   * that step.
   */
  lemma BackUndoesAdvance(env: Env, st: State, c: Choice)
    requires WellFormed(env, st) && CanAdvance(st, c)
    requires Rank(StepMode) <= Rank(st.step) <= Rank(StepToolBottom)
    requires Advanced(env, st, Some(c)).step != st.step
    ensures !BackQuits(env, Advanced(env, st, Some(c)))
    ensures GoneBack(env, Advanced(env, st, Some(c))).step == st.step
  {
    match st.step
    case StepMode =>
    case StepProject =>
    case StepProjectBottom =>
    case StepLayout =>
    case StepTool =>
    case StepToolBottom =>
  }

  /** Done is final: Enter and Esc leave a finished wizard as it is. */
  lemma DoneIsFinal(env: Env, st: State, selected: Option<Choice>)
    requires st.step == StepDone
    requires selected.Some? ==> CanAdvance(st, selected.value)
    ensures Advanced(env, st, selected) == st && GoneBack(env, st) == st
  {
  }

  /**
   * A split choice survives going back to the preset list: choose split mode,
   * return to the presets, pick a preset without a bottom project, and the
   * wizard still ends in split mode.
   */
  lemma SplitChoiceOutlivesBack(env: Env, st: State, p: Config.Preset)
    requires WellFormed(env, st) && st.step == StepPreset && |env.projects| >= 2
    requires Applicable(p) && p.projectBottom == ""
    ensures var s1 := Advanced(env, st, Some(PresetChoice(p, true)));
      var s2 := Advanced(env, s1, Some(ModeChoice(true)));
      var s3 := GoneBack(env, GoneBack(env, s2));
      s3.step == StepPreset &&
      Advanced(env, s3, Some(PresetChoice(p, false))).sel.split &&
      Advanced(env, s3, Some(PresetChoice(p, false))).step == StepDone
  {
    var s1 := Advanced(env, st, Some(PresetChoice(p, true)));
    var s2 := Advanced(env, s1, Some(ModeChoice(true)));
    var s3 := GoneBack(env, GoneBack(env, s2));
    assert s3.sel.split && s3.step == StepPreset;
    AppliedSplitMode(env, s3.sel.(preset := Some(p)), p);
  }

  // ---------------------------------------------------------------------------
  // updatePresetNaming

  /** The preset "Save as preset & Launch" records: the bottom fields only in split mode. */
  function SavedPreset(st: State): (p: Config.Preset)
    ensures p.name == TrimSpace(st.presetInput)
    ensures p.project == st.sel.project.name && p.tool == st.sel.tool.name
    ensures p.layout == LayoutCodec.ID(st.sel.layout)
    ensures st.sel.split ==> p.projectBottom == st.sel.bottomProject.name && p.toolBottom == st.sel.toolBottom.name
    ensures !st.sel.split ==> p.projectBottom == "" && p.toolBottom == ""
  {
    var p := Config.Preset(TrimSpace(st.presetInput), st.sel.project.name,
                           LayoutCodec.ID(st.sel.layout), st.sel.tool.name, "", "");
    if st.sel.split then p.(projectBottom := st.sel.bottomProject.name, toolBottom := st.sel.toolBottom.name)
    else p
  }

  /** updatePresetNaming: Enter saves a non-blank name and finishes, Esc leaves naming, any other key edits. */
  function PresetNamed(st: State, key: Key): State {
    match key
    case Enter =>
      if TrimSpace(st.presetInput) == "" then st
      else st.(cfg := st.cfg.(presets := st.cfg.presets + [SavedPreset(st)]),
               configDirty := true, step := StepDone)
    case Esc => st.(namingPreset := false, presetInput := "")
    case Typed(v) => st.(presetInput := v)
  }

  predicate NamingQuits(st: State, key: Key) {
    key.Enter? && TrimSpace(st.presetInput) != ""
  }

  /**
   * A blank name changes nothing; a named one appends exactly one preset,
   * marks the configuration dirty and finishes; nothing else in the
   * configuration changes.
   */
  lemma PresetNamingAppendsOne(st: State, key: Key)
    ensures key.Enter? && TrimSpace(st.presetInput) == "" ==> PresetNamed(st, key) == st
    ensures NamingQuits(st, key) ==>
              var r := PresetNamed(st, key);
              r.cfg == st.cfg.(presets := st.cfg.presets + [SavedPreset(st)]) &&
              r.configDirty && r.step == StepDone && r.sel == st.sel
    ensures !NamingQuits(st, key) ==>
              PresetNamed(st, key).cfg == st.cfg && PresetNamed(st, key).configDirty == st.configDirty
  {
  }

  lemma PresetNamingPreservesWellFormed(env: Env, st: State, key: Key)
    requires WellFormed(env, st) && st.namingPreset
    ensures WellFormed(env, PresetNamed(st, key))
  {
  }

  /** `x` is the first element carrying its own key. */
  predicate FirstOfKey<T(==)>(xs: seq<T>, keys: seq<string>, key: string, x: T)
    requires |keys| == |xs|
  {
    FirstIndex(keys, key) < |xs| && xs[FirstIndex(keys, key)] == x
  }

  /**
   * A saved preset brings its selection back: applied in a later session over
   * the same projects, tools and layouts, it selects the same project, layout
   * and tool (each the first one carrying its name), and in split mode with a
   * named bottom project the same bottom project and tool.
   */
  lemma SavedPresetRestoresSelection(env: Env, st: State, later: Selection)
    requires FirstOfKey(env.projects, ProjectNames(env.projects), st.sel.project.name, st.sel.project)
    requires FirstOfKey(env.tools, ToolNames(env.tools), st.sel.tool.name, st.sel.tool)
    requires FirstOfKey(env.layouts, GridIDs(env.layouts), LayoutCodec.ID(st.sel.layout), st.sel.layout)
    ensures Applicable(SavedPreset(st))
    ensures var r := Applied(env, later, SavedPreset(st));
      r.project == st.sel.project && r.tool == st.sel.tool &&
      (st.sel.layout.name != "" ==> r.layout == st.sel.layout)
    ensures st.sel.split && st.sel.bottomProject.name != "" &&
            FirstOfKey(env.projects, ProjectNames(env.projects), st.sel.bottomProject.name, st.sel.bottomProject) &&
            FirstOfKey(env.tools, ToolNames(env.tools), st.sel.toolBottom.name, st.sel.toolBottom) ==>
              var r := Applied(env, later, SavedPreset(st));
              r.split && r.bottomProject == st.sel.bottomProject && r.toolBottom == st.sel.toolBottom
  {
    var p := SavedPreset(st);
    assert LayoutCodec.LegacyConverted(p.layout) == Some(p.layout);
  }

  // ---------------------------------------------------------------------------
  // updateCustomLayoutInput

  /** The layout built from accepted row counts: named "Custom <ID>" and drawn row by row. */
  function CustomLayout(rowCols: seq<int>): (l: LayoutCodec.GridLayout)
    ensures l.rowCols == rowCols && l.desc == LayoutCodec.GenerateDesc(rowCols)
    ensures l.name == "Custom " + LayoutCodec.RowColsID(rowCols)
  {
    var l := LayoutCodec.GridLayout("", rowCols, LayoutCodec.GenerateDesc(rowCols));
    l.(name := "Custom " + LayoutCodec.ID(l))
  }

  /**
   * updateCustomLayoutInput: Enter accepts a layout the row/column grammar
   * parses, selects it, records it and moves to the tool step; blank or
   * invalid text is ignored; Esc leaves the input; any other key edits.
   */
  function CustomLayoutEntered(st: State, key: Key): State {
    match key
    case Enter =>
      var input := TrimSpace(st.customLayoutInput);
      if input == "" then st
      else
        var parsed := LayoutCodec.RowColsOf(input);
        if parsed.None? then st
        else
          var layout := CustomLayout(parsed.value);
          st.(sel := st.sel.(layout := layout),
              cfg := st.cfg.(customLayouts := st.cfg.customLayouts + [Config.CustomLayout(layout.name, parsed.value)]),
              configDirty := true,
              enteringCustomLayout := false,
              customLayoutInput := "",
              step := StepTool)
    case Esc => st.(enteringCustomLayout := false, customLayoutInput := "")
    case Typed(v) => st.(customLayoutInput := v)
  }

  /**
   * Blank or invalid text changes nothing; accepted text appends exactly one
   * custom layout of 1 to 20 terminals, whose identifier parses back to its
   * rows, selects it, and moves on to the tool step.
   */
  lemma CustomLayoutAppendsOne(st: State, key: Key)
    ensures key.Enter? && LayoutCodec.RowColsOf(TrimSpace(st.customLayoutInput)).None? ==>
              CustomLayoutEntered(st, key) == st
    ensures key.Enter? && LayoutCodec.RowColsOf(TrimSpace(st.customLayoutInput)).Some? ==>
              var rowCols := LayoutCodec.RowColsOf(TrimSpace(st.customLayoutInput)).value;
              var r := CustomLayoutEntered(st, key);
              r.cfg == st.cfg.(customLayouts := st.cfg.customLayouts + [Config.CustomLayout(r.sel.layout.name, rowCols)]) &&
              r.configDirty && r.step == StepTool && r.sel.layout.rowCols == rowCols &&
              1 <= LayoutCodec.Sum(rowCols) <= LayoutCodec.MaxTerminals &&
              LayoutCodec.RowColsOf(LayoutCodec.ID(r.sel.layout)) == Some(rowCols)
  {
    var input := TrimSpace(st.customLayoutInput);
    LayoutCodec.RowColsOfEmpty();
    if key.Enter? && LayoutCodec.RowColsOf(input).Some? {
      var rowCols := LayoutCodec.RowColsOf(input).value;
      LayoutCodec.RowColsRoundTrip(rowCols);
      LayoutCodec.SumBound(rowCols, 0);
    }
  }

  lemma CustomLayoutPreservesWellFormed(env: Env, st: State, key: Key)
    requires WellFormed(env, st) && st.enteringCustomLayout
    ensures WellFormed(env, CustomLayoutEntered(st, key))
  {
  }

  // ---------------------------------------------------------------------------
  // selectionLineCount and listSize

  /** The labels of the "previous selections" lines above the list, in display order. */
  function SummaryLabels(s: Step, split: bool): seq<string> {
    var r := Rank(s);
    if split then
      (if r > Rank(StepProject) then ["Top:"] else []) +
      (if r > Rank(StepProjectBottom) then ["Bottom:"] else []) +
      (if r > Rank(StepLayout) then ["Layout:"] else []) +
      (if r > Rank(StepTool) then ["Top Tool:"] else []) +
      (if r > Rank(StepToolBottom) then ["Btm Tool:"] else [])
    else
      (if r > Rank(StepProject) then ["Project:"] else []) +
      (if r > Rank(StepLayout) then ["Layout:"] else []) +
      (if r > Rank(StepTool) then ["Tool:"] else [])
  }

  /** selectionLineCount: one line per previous selection, plus a blank line when there is any. */
  function SelectionLineCount(s: Step, split: bool): (n: nat)
    ensures n <= 6 && (n == 0 <==> Rank(s) <= Rank(StepProject))
  {
    var count :=
      if split then
        (if Rank(s) > Rank(StepProject) then 1 else 0) +
        (if Rank(s) > Rank(StepProjectBottom) then 1 else 0) +
        (if Rank(s) > Rank(StepLayout) then 1 else 0) +
        (if Rank(s) > Rank(StepTool) then 1 else 0) +
        (if Rank(s) > Rank(StepToolBottom) then 1 else 0)
      else
        (if Rank(s) > Rank(StepProject) then 1 else 0) +
        (if Rank(s) > Rank(StepLayout) then 1 else 0) +
        (if Rank(s) > Rank(StepTool) then 1 else 0);
    if count > 0 then count + 1 else count
  }

  /** The count matches what the selection summary prints. */
  lemma SelectionLineCountMatchesSummary(s: Step, split: bool)
    ensures var labels := SummaryLabels(s, split);
      SelectionLineCount(s, split) == |labels| + (if |labels| > 0 then 1 else 0)
  {
  }

  /** The frame of the outer style: two columns of padding on each side, one line above and below. */
  const FrameWidth: int := 4
  const FrameHeight: int := 2

  /**
   * listSize: the window minus the frame and the header lines; a width below
   * 30 falls back to 60 and a height below 5 to 20.
   */
  function ListSize(width: int, height: int, s: Step, split: bool): (r: (int, int))
    ensures r.0 >= 30 && r.1 >= 5
    ensures width - FrameWidth >= 30 ==> r.0 == width - FrameWidth
    ensures width - FrameWidth < 30 ==> r.0 == 60
    ensures height - FrameHeight - 6 - SelectionLineCount(s, split) >= 5 ==>
              r.1 == height - FrameHeight - 6 - SelectionLineCount(s, split)
    ensures height - FrameHeight - 6 - SelectionLineCount(s, split) < 5 ==> r.1 == 20
  {
    var w := width - FrameWidth;
    var overhead := 6 + SelectionLineCount(s, split);
    var lh := height - FrameHeight - overhead;
    (if w < 30 then 60 else w, if lh < 5 then 20 else lh)
  }

  // ---------------------------------------------------------------------------
  // The transitions. Go's Model is a value: each transition works on its own
  // copy, changes it field by field and hands it back.

  /**
   * NewModel: the tools merged from the configuration, no selection yet, the
   * first step chosen by InitialStep.
   */
  method NewModel(projects: seq<Project>, cfg: Config.Config, cwd: string,
                  layouts: seq<LayoutCodec.GridLayout>, splitLayouts: seq<LayoutCodec.GridLayout>)
    returns (env: Env, m: State)
    ensures env.projects == projects && env.cwd == cwd
    ensures env.layouts == layouts && env.splitLayouts == splitLayouts
    ensures |env.tools| == |BuiltinTools| + |cfg.customCommands|
    ensures env.tools[..|BuiltinTools|] == BuiltinTools
    ensures forall i :: 0 <= i < |cfg.customCommands| ==>
              env.tools[|BuiltinTools| + i] == Tool(cfg.customCommands[i].0, cfg.customCommands[i].1, true)
    ensures m == Initial(env, cfg)
    ensures WellFormed(env, m)
  {
    var tools := AllTools(cfg);
    env := Env(projects, cwd, tools, layouts, splitLayouts);
    var step;
    if |cfg.presets| > 0 {
      step := StepPreset;
    } else if |projects| >= 2 {
      step := StepMode;
    } else {
      step := StepProject;
    }
    m := State(step, false, false, cfg, NoSelection, false, "", false, "");
  }

  /** applyPreset: five search loops, each keeping the prior value when nothing matches. */
  method ApplyPreset(env: Env, sel: Selection, p: Config.Preset) returns (r: Selection)
    requires Applicable(p)
    ensures r == Applied(env, sel, p)
  {
    r := sel;
    var project := Find(env.projects, ProjectNames(env.projects), p.project, r.project);
    r := r.(project := project);
    var layoutID := LayoutCodec.ConvertLegacyLayoutID(p.layout);
    var layout := Find(env.layouts, GridIDs(env.layouts), layoutID.value, r.layout);
    if layout.name == "" {
      layout := Find(env.splitLayouts, GridIDs(env.splitLayouts), layoutID.value, layout);
    }
    r := r.(layout := layout);
    var tool := Find(env.tools, ToolNames(env.tools), p.tool, r.tool);
    r := r.(tool := tool);
    if p.projectBottom != "" {
      r := r.(split := true);
      var bottomProject := Find(env.projects, ProjectNames(env.projects), p.projectBottom, r.bottomProject);
      r := r.(bottomProject := bottomProject);
      var toolBottom := Find(env.tools, ToolNames(env.tools), p.toolBottom, r.toolBottom);
      r := r.(toolBottom := toolBottom);
    }
  }

  /** advance: Enter on the selected list item; `quit` is the program-ending command. */
  method Advance(env: Env, m: State, selected: Option<Choice>) returns (r: State, quit: bool)
    requires WellFormed(env, m) && !m.namingPreset && !m.enteringCustomLayout
    requires selected.Some? ==> CanAdvance(m, selected.value)
    ensures r == Advanced(env, m, selected)
    ensures quit == AdvanceQuits(env, m, selected)
    ensures WellFormed(env, r)
  {
    AdvancePreservesWellFormed(env, m, selected);
    r, quit := m, false;
    if selected.None? {
      return;
    }
    var c := selected.value;
    match r.step
    case StepPreset =>
      if c.isNew {
        if |env.projects| >= 2 {
          r := r.(step := StepMode);
        } else {
          r := r.(step := StepProject);
        }
      } else {
        r := r.(sel := r.sel.(preset := Some(c.preset)));
        var sel := ApplyPreset(env, r.sel, c.preset);
        r := r.(sel := sel, step := StepDone);
        quit := true;
      }
    case StepMode =>
      r := r.(sel := r.sel.(split := c.split), step := StepProject);
    case StepProject =>
      r := r.(sel := r.sel.(project := c.project));
      if r.sel.split {
        r := r.(step := StepProjectBottom);
      } else {
        r := r.(step := StepLayout);
      }
    case StepProjectBottom =>
      r := r.(sel := r.sel.(bottomProject := c.project), step := StepLayout);
    case StepLayout =>
      if c.layout.name == "Custom..." {
        r := r.(enteringCustomLayout := true);
      } else {
        r := r.(sel := r.sel.(layout := c.layout), step := StepTool);
      }
    case StepTool =>
      r := r.(sel := r.sel.(tool := c.tool));
      if r.sel.split {
        r := r.(step := StepToolBottom);
      } else {
        r := r.(step := StepConfirm);
      }
    case StepToolBottom =>
      r := r.(sel := r.sel.(toolBottom := c.tool), step := StepConfirm);
    case StepConfirm =>
      if c.name == "Launch" {
        r := r.(step := StepDone);
        quit := true;
      } else {
        r := r.(namingPreset := true);
      }
    case StepDone =>
  }

  /** goBack: Esc; `quit` is set exactly when the wizard is cancelled. */
  method GoBack(env: Env, m: State) returns (r: State, quit: bool)
    requires WellFormed(env, m) && !m.namingPreset && !m.enteringCustomLayout
    ensures r == GoneBack(env, m)
    ensures quit == BackQuits(env, m)
    ensures WellFormed(env, r)
  {
    GoBackPreservesWellFormed(env, m);
    r, quit := m, false;
    match r.step
    case StepPreset =>
      r := r.(cancelled := true);
      quit := true;
    case StepMode =>
      if |r.cfg.presets| > 0 {
        r := r.(step := StepPreset);
      } else {
        r := r.(cancelled := true);
        quit := true;
      }
    case StepProject =>
      if |env.projects| >= 2 {
        r := r.(step := StepMode);
      } else if |r.cfg.presets| > 0 {
        r := r.(step := StepPreset);
      } else {
        r := r.(cancelled := true);
        quit := true;
      }
    case StepProjectBottom =>
      r := r.(step := StepProject);
    case StepLayout =>
      if r.sel.split {
        r := r.(step := StepProjectBottom);
      } else {
        r := r.(step := StepProject);
      }
    case StepTool =>
      r := r.(step := StepLayout);
    case StepToolBottom =>
      r := r.(step := StepTool);
    case StepConfirm =>
      if r.sel.split {
        r := r.(step := StepToolBottom);
      } else {
        r := r.(step := StepTool);
      }
    case StepDone =>
  }

  /** updatePresetNaming: a key while the preset-name input is open. */
  method UpdatePresetNaming(env: Env, m: State, key: Key) returns (r: State, quit: bool)
    requires WellFormed(env, m) && m.namingPreset
    ensures r == PresetNamed(m, key)
    ensures quit == NamingQuits(m, key)
    ensures WellFormed(env, r)
  {
    PresetNamingPreservesWellFormed(env, m, key);
    r, quit := m, false;
    match key
    case Enter =>
      var name := TrimSpace(r.presetInput);
      if name == "" {
        return;
      }
      var preset := Config.Preset(name, r.sel.project.name, LayoutCodec.ID(r.sel.layout), r.sel.tool.name, "", "");
      if r.sel.split {
        preset := preset.(projectBottom := r.sel.bottomProject.name, toolBottom := r.sel.toolBottom.name);
      }
      r := r.(cfg := r.cfg.(presets := r.cfg.presets + [preset]), configDirty := true, step := StepDone);
      quit := true;
    case Esc =>
      r := r.(namingPreset := false, presetInput := "");
    case Typed(v) =>
      r := r.(presetInput := v);
  }

  /** updateCustomLayoutInput: a key while the custom-layout input is open. */
  method UpdateCustomLayoutInput(env: Env, m: State, key: Key) returns (r: State)
    requires WellFormed(env, m) && m.enteringCustomLayout
    ensures r == CustomLayoutEntered(m, key)
    ensures WellFormed(env, r)
  {
    CustomLayoutPreservesWellFormed(env, m, key);
    r := m;
    match key
    case Enter =>
      var input := TrimSpace(r.customLayoutInput);
      if input == "" {
        return;
      }
      var rowCols := LayoutCodec.ParseRowCols(input);
      if rowCols.None? {
        return;
      }
      var layout := LayoutCodec.GridLayout("", rowCols.value, LayoutCodec.GenerateDesc(rowCols.value));
      layout := layout.(name := "Custom " + LayoutCodec.ID(layout));
      r := r.(sel := r.sel.(layout := layout));
      r := r.(cfg := r.cfg.(customLayouts := r.cfg.customLayouts + [Config.CustomLayout(layout.name, rowCols.value)]));
      r := r.(configDirty := true, enteringCustomLayout := false, customLayoutInput := "", step := StepTool);
    case Esc =>
      r := r.(enteringCustomLayout := false, customLayoutInput := "");
    case Typed(v) =>
      r := r.(customLayoutInput := v);
  }
}
