# agent-t workspace wizard and launcher, in Dafny

agent-t is a terminal program for macOS that opens a grid of Terminal windows for
a project. A grid might be four terminals, each running an AI coding tool in
the project's directory. Before launching, a wizard collects the choices:

- a saved preset, or a new workspace;
- single or split mode (two projects, top and bottom);
- the project, or the top and bottom projects;
- a grid layout, or a custom one typed as column counts per row ("3,4");
- a tool per half;
- "Launch", or "Save as preset & Launch".

The launcher then does three things:

- It detects the screen holding the front Terminal window.
- It builds the shell command every window runs: `cd '<dir>' && clear`, then the tool's command if there is one.
- It fills an AppleScript template that tiles the windows over the screen below a 25-pixel menu bar.

This project models that core and proves its properties. The modules are:

- `Text` (text.dfy): the Go `strings`/`strconv` routines the core relies on: TrimSpace, Index, Split, Join, Fields, Atoi and Itoa, with Atoi limited to 64 bits.
- `Config` (preset.dfy): the preset and configuration records, and `Preset.Summary`.
- `LayoutCodec` (layout_codec.dfy): layouts as column counts per row, identified by the counts joined with commas; `parseRowCols`; and `convertLegacyLayoutID`, which migrates "ColsxRows" identifiers.
  - `parseRowCols` is modelled twice: as written, with the running total wrapping at 64 bits like Go's `int`, and as evidently intended, with an unbounded total. The wizard uses the intended one (see Findings).
- `Steps` (steps.go as shown, in steps.dfy):
  - the step order, `stepTitle` and `stepNumber`;
  - the uniform grid layouts and their "ColsxRows" `ID`;
  - `AllTools`, the item titles, and the list builders with their default-cursor rules.
- `Wizard` (wizard.dfy): the step machine of model.go.
  - Each transition (`NewModel`, `advance`, `goBack`, `applyPreset`, `updatePresetNaming`, `updateCustomLayoutInput`) is a method over the model's state. It is proved equal to a specification function and proved to keep the state well formed.
  - Lemmas about those functions state the transition rules, going back after going forward, and the round trip from a saved preset to a restored selection.
  - `selectionLineCount` and `listSize` are also here.
- `Launcher` (launcher.dfy):
  - `shellQuote`, together with a POSIX reading of a single shell word that shows the quoted directory reads back unchanged;
  - the terminal command;
  - the parsing of the screen-detection output with its fallback, including a read-back of the line the detection script prints;
  - the values handed to the template.
- `Tiling` (tiling.dfy): the template's nested repeat loops as a method over a sequence of placements.
  - The terminal command is pasted into the AppleScript string literal of `do script "..."`. The model reads that literal the way AppleScript does, so a command holding `"` or `\` is not run as written (see Findings).
  - Lemmas cover row-major order, shared edges between neighbouring cells, the screen edges and the command every window runs.

Go's `Model` is a value type. `advance`, `goBack` and the two input handlers have value receivers and return a changed copy. So each is modelled as a method that takes a `State` value and returns the new one, and `quit` stands for the `tea.Quit` command.

## Model

| member | source | states |
|---|---|---|
| Text.TrimSpace | internal/tui/model.go:657 | the trimmed text is no longer than the input and neither starts nor ends with white space |
| Text.TrimSpaceCuts | internal/launcher/launcher.go:56 | trimming removes only white space and only at the two ends: the result is a contiguous slice of the input with nothing but white space before and after it |
| Text.TrimSpaceOfNoSpace | internal/tui/model.go:657 | text without white space is left unchanged by trimming |
| Text.IndexOf | internal/tui/model.go:580 | the position of the first occurrence of the separator |
| Text.Split | internal/tui/model.go:653 | splitting gives at least one part and no part holds the separator |
| Text.SplitJoin | internal/tui/model.go:653 | splitting a comma-joined list gives the list back when no element holds a comma |
| Text.Fields | internal/launcher/launcher.go:56 | every field is non-empty and holds no white space |
| Text.FieldsOfWord | internal/launcher/launcher.go:56 | a run of non-white-space characters followed by white space or by the end is the first field, whole |
| Text.FieldsDropSpace | internal/launcher/launcher.go:56 | white space in front of the fields is skipped |
| Text.FieldsCover | internal/launcher/launcher.go:56 | the fields, put back together, are the text with every white-space character removed: no character other than white space is lost, reordered or invented |
| Text.Atoi | internal/tui/model.go:661 | a number is only ever read from non-empty text, and it lies in the 64-bit range |
| Text.AtoiAccepts | internal/tui/model.go:661 | Atoi accepts only an optional sign followed by one or more decimal digits; for such text it returns the signed decimal value exactly when that value fits in 64 bits, and an error otherwise |
| Text.AtoiExamples | internal/launcher/launcher.go:63 | "3a", " 3", "+", "1.5" and "" are errors; "+7" reads as 7 and "-12" as -12 |
| Text.ItoaChars | internal/tui/model.go:591 | Itoa writes only digits and a minus sign, so never a comma, an 'x' or a blank |
| Text.AtoiItoa | internal/tui/model.go:584-591 | Atoi reads back every 64-bit integer Itoa writes |
| Text.ItoaInjective | internal/tui/steps.go:65 | two 64-bit integers with the same decimal text are equal |
| Config.Summary | internal/config/preset.go:14-27 | the summary holds a '\|' and is at least as long as the project, the layout and the shown tool with the two " \| " separators |
| Config.SummaryJoinsColumns | internal/config/preset.go:14-27 | when no name holds a '\|', the summary is exactly three bar-free columns joined by '\|' |
| Config.ThreeColumns | internal/config/preset.go:14-27 | three bar-free columns joined by '\|' split back into the same three columns |
| Config.SummaryReadsBack | internal/config/preset.go:14-27 | split on '\|', a summary gives back its three columns: the project (with " + " and the bottom project in split form), the layout, and the tool (with " + " and the bottom tool in split form); the split form is used exactly when ProjectBottom is non-empty |
| Config.SummaryShowsNone | internal/config/preset.go:15-23 | an empty tool is shown as "None", and in split form so is an empty bottom tool |
| Config.SummaryIgnoresToolBottom | internal/config/preset.go:19-26 | without a bottom project the bottom tool never affects the summary |
| LayoutCodec.Repeat | internal/tui/model.go:589-592 | R copies of the column count C, and nothing else |
| LayoutCodec.AddInt64 | internal/tui/model.go:666 | Go's `+` on two 64-bit ints: the result stays in the 64-bit range and differs from the true sum by at most one wrap of 2^64, and it is the true sum whenever that fits |
| LayoutCodec.RowColsID | internal/tui/model.go:593 | the identifier holds no 'x', and split at commas it gives back each count's decimal text in order |
| LayoutCodec.RowDesc | internal/tui/steps.go:68-71 | one row's drawing is three characters per cell and holds no '/' |
| LayoutCodec.GenerateDesc | internal/tui/model.go:608 | the drawing holds a '/' exactly when there are two or more rows |
| LayoutCodec.GenerateDescRows | internal/tui/model.go:608 | split at '/', the drawing has one part per row |
| LayoutCodec.RowColsOf | internal/tui/model.go:651-672 | the intended reading, with an unbounded total: an accepted layout has at least one row, every count at least 1 and a total of at most 20 |
| LayoutCodec.RowColsAsWritten | internal/tui/model.go:651-672 | the reading as written, with the total wrapping at 64 bits: an accepted layout has at least one row, every count at least 1 and a wrapped total of at most 20 |
| LayoutCodec.ParseRowColsAsWritten | internal/tui/model.go:651-672 | the Go loop, with `total += n` wrapping at 64 bits, returns RowColsAsWritten, and agrees with the intended reading on every text that reading accepts |
| LayoutCodec.ParseRowCols | internal/tui/model.go:651-672 | the loop with an unbounded running total returns exactly RowColsOf: the non-blank trimmed segments read as integers, in input order, or an error |
| LayoutCodec.ParseStep | internal/tui/model.go:656-667 | one iteration skips a blank segment, appends a count, or rejects the whole text for a segment that is not an integer of at least 1 |
| LayoutCodec.RowColsOfBad | internal/tui/model.go:661-664 | one non-blank segment that is not an integer of at least 1 rejects the whole text, whatever follows, in both readings |
| LayoutCodec.RowColsOfCounts | internal/tui/model.go:668-671 | when every segment is a count, the text is rejected exactly when there are no counts or they add up to more than 20 |
| LayoutCodec.RowColsAsWrittenCounts | internal/tui/model.go:666-671 | as written, when every segment is a count, the text is rejected exactly when there are no counts or their wrapped total is more than 20 |
| LayoutCodec.WrappedSumAgrees | internal/tui/model.go:666 | for counts of at least 1 whose true sum fits in 64 bits, the wrapped total is the true sum |
| LayoutCodec.AsWrittenAgrees | internal/tui/model.go:651-672 | the two readings agree on every text the intended one accepts; where they differ, only the as-written one accepts, and then the true total exceeds the 64-bit maximum |
| LayoutCodec.WrapAcceptsHugeLayout | internal/tui/model.go:666-668 | for any two counts of at most 2^63-1 whose sum exceeds it, such as "9223372036854775807,1", the code as written accepts the two-row layout, and the intended reading rejects it |
| LayoutCodec.NumbersParse | internal/tui/model.go:653-667 | the comma identifier of positive 64-bit counts splits into segments that all parse as counts, giving the counts back |
| LayoutCodec.RowColsOfEmpty | internal/tui/model.go:668 | empty text is rejected |
| LayoutCodec.RowColsRoundTrip | internal/tui/model.go:651-672 | every layout parseRowCols could return is parsed back from its own comma identifier |
| LayoutCodec.RowColsIDInjective | internal/tui/model.go:651-672 | two valid layouts with the same identifier are the same layout |
| LayoutCodec.ConvertLegacyLayoutID | internal/tui/model.go:573-594 | the migration returns LegacyConverted: the input unchanged without an 'x' or when either side of the first 'x' is not an integer, None (the Go panic) for a negative R, otherwise R copies of C joined by commas, for every R Go can allocate |
| LayoutCodec.LegacyIdempotent | internal/tui/model.go:576-579 | migrating a migrated identifier changes nothing |
| LayoutCodec.LegacyExpands | internal/tui/model.go:584-593 | "CxR" becomes R copies of C for every 64-bit C and every R >= 0 that Go can allocate |
| LayoutCodec.LegacyParses | internal/tui/model.go:573-594 | a migrated legacy grid of 1 to 20 cells is accepted by parseRowCols as R rows of C columns |
| Steps.RankInjective | internal/tui/steps.go:12-21 | the steps' integer values are distinct |
| Steps.StepTitle | internal/tui/steps.go:23-38 | a step has a non-empty title exactly when it is Preset, Project, Layout, Tool or Confirm |
| Steps.StepNumber | internal/tui/steps.go:40-55 | the total is always 4, and the number is non-zero (1 to 4) exactly for Project, Layout, Tool and Confirm |
| Steps.StepNumberFollowsOrder | internal/tui/steps.go:40-55 | the numbered steps are numbered in step order, and the presence of presets does not matter |
| Steps.ID | internal/tui/steps.go:65 | the identifier holds an 'x'; before the first one is the decimal column count and after it the decimal row count |
| Steps.IDInjective | internal/tui/steps.go:65 | two grids with the same "ColsxRows" identifier have the same columns and rows |
| Steps.IDMigrates | internal/tui/steps.go:65 | a grid's identifier migrates to Rows copies of Cols in the comma format |
| Steps.BuiltinLayoutsConsistent | internal/tui/steps.go:67-72 | each built-in layout's name gives Cols x Rows terminals, its description draws Rows rows of Cols cells joined by " / ", and it has 1 to 20 cells |
| Steps.AllTools | internal/tui/steps.go:89-96 | the built-in tools unchanged and in order, then one custom tool per configured command; the length is the sum of the two counts |
| Steps.ToolTitle | internal/tui/steps.go:139-144 | the title is the name, with " (custom)" appended exactly for custom tools |
| Steps.ToolDescription | internal/tui/steps.go:145-150 | never empty; a tool with a command is described by it; the description is "Just open terminals" exactly when the tool has no command or that is its command |
| Steps.PresetTitle | internal/tui/steps.go:105-110 | a preset is titled by its name; the title is "New workspace..." exactly for the new-workspace item or a preset of that name |
| Steps.PresetDescription | internal/tui/steps.go:111-116 | a preset's description starts with its project and a blank, and holds a '\|' exactly when the item is a preset rather than the new-workspace item |
| Steps.NewPresetList | internal/tui/steps.go:164-179 | "New workspace..." first, then the presets in order; the cursor on the first preset when there is one; filtering only for more than five presets |
| Steps.NewProjectList | internal/tui/steps.go:181-192 | one item per project in order, cursor on the first, filtering on |
| Steps.NewLayoutList | internal/tui/steps.go:194-210 | the built-in layouts in order, and the cursor on the last layout whose identifier equals the default, or 0 when none does |
| Steps.NewToolList | internal/tui/steps.go:212-228 | the tools in order, and the cursor on the last tool named like the default, or 0 when none is |
| Steps.DefaultCursorUnique | internal/tui/steps.go:196-201 | the default-cursor rule determines exactly one cursor |
| Wizard.Initial | internal/tui/model.go:64-74 | the wizard starts at Preset exactly when presets exist, at Mode exactly when there are none and there are two or more projects, and at Project exactly when there are none and fewer than two projects; the start state is well formed |
| Wizard.NewModel | internal/tui/model.go:52-91 | the tools are the built-in tools unchanged, followed by one custom tool per configured command with its name and command, in order; the projects and layouts are kept, and the state is the well-formed start state with nothing selected |
| Wizard.BackFromInitialCancels | internal/tui/model.go:414-442 | Esc at the step the wizard starts on cancels it |
| Wizard.Find | internal/tui/model.go:525-530 | one search loop returns the first element carrying the key, or the prior value |
| Wizard.LookupFindsFirst | internal/tui/model.go:525-530 | a lookup finds the first element with the key, and keeps the prior value when no element has it |
| Wizard.ApplyPreset | internal/tui/model.go:523-571 | the five search loops produce Applied: names looked up, first match wins, the prior value kept on a miss |
| Wizard.ProjectLookup | internal/tui/model.go:524-530 | a project lookup returns the first project with the name, or the prior project when none has it |
| Wizard.ToolLookup | internal/tui/model.go:548-554 | a tool lookup returns the first tool with the name, or the prior tool when none has it |
| Wizard.AppliedTakesFirstMatch | internal/tui/model.go:524-554 | the selected project and tool are the first ones carrying the preset's names, and stay as they were on a miss |
| Wizard.AppliedBottomFirstMatch | internal/tui/model.go:555-570 | with a bottom project, split mode is on and the bottom project and bottom tool are the first ones carrying the preset's names, or stay as they were on a miss |
| Wizard.AppliedTakesFirstLayout | internal/tui/model.go:533-547 | when a regular layout has the migrated identifier, the first such layout is found; a named one is selected, and a nameless one leaves the selection on it or on a split layout |
| Wizard.AppliedSplitMode | internal/tui/model.go:555-570 | split mode ends up on exactly when the preset has a bottom project or split mode was already on; without a bottom project the bottom selections are untouched |
| Wizard.AppliedKeepsNamedLayout | internal/tui/model.go:533-547 | a layout already selected by name blocks the split-layout search, so a miss in the regular layouts keeps it |
| Wizard.AppliedFindsSplitLayout | internal/tui/model.go:540-547 | with no layout selected, a regular-layout miss selects the first split layout with the migrated identifier |
| Wizard.Advance | internal/tui/model.go:290-412 | Enter produces Advanced and quits exactly when the wizard reaches Done; the state stays well formed |
| Wizard.AdvancePreservesWellFormed | internal/tui/model.go:290-412 | the bottom steps are reached only in split mode, Mode only with two or more projects, the sub-flows only at their steps, and a preset is picked only when done |
| Wizard.AdvanceMovesForward | internal/tui/model.go:290-412 | advance never moves back, and stays on its step exactly for an empty list, "Custom...", a confirm item other than "Launch", or Done |
| Wizard.AdvanceOnlyChooses | internal/tui/model.go:290-412 | advance leaves the configuration, the dirty and cancelled flags and the text inputs unchanged |
| Wizard.GoBack | internal/tui/model.go:414-487 | Esc produces GoneBack and quits exactly when the wizard is cancelled; the state stays well formed |
| Wizard.GoBackPreservesWellFormed | internal/tui/model.go:414-487 | going back keeps the state well formed |
| Wizard.GoBackMovesBackward | internal/tui/model.go:414-487 | going back moves strictly to an earlier step unless it cancels or the wizard is done |
| Wizard.BackUndoesAdvance | internal/tui/model.go:414-487 | from every step from Mode to ToolBottom, an advance that changes the step followed by goBack returns to that step |
| Wizard.DoneIsFinal | internal/tui/model.go:291-409 | Enter and Esc leave a finished wizard unchanged |
| Wizard.SplitChoiceOutlivesBack | internal/tui/model.go:555-558 | choosing split mode, going back to the presets and picking a preset without a bottom project still ends in split mode |
| Wizard.SavedPreset | internal/tui/model.go:497-506 | the saved preset holds the trimmed name, the project, the layout's identifier and the tool, and the bottom fields exactly in split mode |
| Wizard.UpdatePresetNaming | internal/tui/model.go:489-521 | a key in the name input produces PresetNamed and quits exactly on Enter with a non-blank name; the state stays well formed |
| Wizard.PresetNamingAppendsOne | internal/tui/model.go:489-516 | a blank name changes nothing; a named one appends exactly one preset, sets the dirty flag and finishes, and nothing else in the configuration changes |
| Wizard.PresetNamingPreservesWellFormed | internal/tui/model.go:489-521 | the naming sub-flow keeps the state well formed |
| Wizard.SavedPresetRestoresSelection | internal/tui/model.go:497-506 | a saved preset, applied later over the same projects, tools and layouts, selects the same project, tool and named layout, and in split mode the same bottom project and tool |
| Wizard.CustomLayout | internal/tui/model.go:607-609 | the new layout holds the parsed rows, draws them, and is named "Custom " followed by its identifier |
| Wizard.UpdateCustomLayoutInput | internal/tui/model.go:596-637 | a key in the custom-layout input produces CustomLayoutEntered; the state stays well formed |
| Wizard.CustomLayoutAppendsOne | internal/tui/model.go:596-626 | blank or invalid text changes nothing; accepted text appends exactly one custom layout of 1 to 20 terminals, selects it, sets the dirty flag and moves to Tool, and its identifier parses back to its rows |
| Wizard.CustomLayoutPreservesWellFormed | internal/tui/model.go:596-637 | the custom-layout sub-flow keeps the state well formed |
| Wizard.SelectionLineCount | internal/tui/model.go:674-707 | at most 6 lines, and none exactly up to the Project step |
| Wizard.SelectionLineCountMatchesSummary | internal/tui/model.go:195-246 | the count is one line per summary label the selection summary prints, plus a blank line when there is any |
| Wizard.ListSize | internal/tui/model.go:709-721 | the list is the window minus the frame and the header lines, with a width below 30 replaced by 60 and a height below 5 by 20 |
| Launcher.ShellQuote | internal/launcher/launcher.go:104-107 | the quoted text starts and ends with a single quote |
| Launcher.EscapeLength | internal/launcher/launcher.go:106 | each single quote grows by three characters and nothing else changes length |
| Launcher.EscapeWithoutQuotes | internal/launcher/launcher.go:106 | text without single quotes is left as it is |
| Launcher.EscapeKeeps | internal/launcher/launcher.go:106 | every character other than a single quote survives escaping, and a single quote leaves a backslash |
| Launcher.EscapeAppend | internal/launcher/launcher.go:106 | escaping works character by character: it distributes over concatenation |
| Launcher.ShellQuoteExample | internal/launcher/launcher.go:106 | it's becomes 'it'\''s' |
| Launcher.UnquoteShellQuote | internal/launcher/launcher.go:104-107 | a POSIX shell reads the quoted text as one word equal to the original text |
| Launcher.TermCommand | internal/launcher/launcher.go:36-39 | the command starts with "cd ", the quoted directory and " && clear", and is exactly that long precisely when there is no tool command |
| Launcher.TermCommandKeepsQuotes | internal/launcher/launcher.go:36-39 | a single or double quote in the directory leaves a double quote or a backslash in the command |
| Launcher.TermCommandShape | internal/launcher/launcher.go:36-39 | the command is "cd ", the quoted directory (which reads back as the directory) and " && clear", followed by " && " and the tool's command exactly when that command is non-empty |
| Launcher.BadField | internal/launcher/launcher.go:61-68 | there is no bad field exactly when every field parses as an integer |
| Launcher.BadFieldIs | internal/launcher/launcher.go:62-66 | the error names the first field Atoi rejects |
| Launcher.DetectScreen | internal/launcher/launcher.go:49-71 | the parsing loop returns ScreenOf: a failed command, not exactly four fields, or the first non-integer field is an error, otherwise the four values |
| Launcher.ScreenOfAccepts | internal/launcher/launcher.go:56-70 | detection succeeds exactly when the trimmed output has four fields that all parse as integers, and then the bounds are those four values in order X1, Y1, X2, Y2 |
| Launcher.FieldsOfDetectionLine | internal/launcher/scripts.go:18 | the line the detection script prints splits into the four numbers' texts |
| Launcher.ScreenOfDetectionLine | internal/launcher/launcher.go:56-70 | the bounds the detection script prints, with its trailing newline, are read back unchanged |
| Launcher.LaunchData | internal/launcher/launcher.go:29-41 | the template gets the requested grid and the terminal command |
| Launcher.ScriptEscape | internal/launcher/scripts.go:48 | escaping for an AppleScript string literal never shortens the text and leaves text without '"' and '\\' unchanged |
| Launcher.EscapedLaunchData | internal/launcher/launcher.go:29-41 | the corrected template values: the same bounds and grid as LaunchData, and the terminal command escaped for the literal |
| Launcher.LaunchUsesDetectedOrFallback | internal/launcher/launcher.go:30-34 | the detected bounds are used when detection succeeds, and every failure is replaced by (0, 0, 1920, 1080) and never reported |
| Launcher.LaunchUsesPrintedBounds | internal/launcher/launcher.go:30-41 | when the detection script prints a screen's bounds, the tiling uses exactly those bounds |
| Tiling.LiteralValueLength | internal/launcher/scripts.go:48 | a readable literal body never reads longer than itself, and reads at full length only without '"' and '\\' |
| Tiling.LiteralValueVerbatim | internal/launcher/scripts.go:48 | a literal body reads back as itself exactly when it holds no '"' and no '\\' |
| Tiling.LiteralValueOfEscaped | internal/launcher/scripts.go:48 | every text, escaped for the literal, reads back as itself |
| Tiling.LiteralAppend | internal/launcher/scripts.go:48 | after a readable start, the reading of the rest continues it: the whole reads as the two readings joined, or is unreadable when the rest is |
| Tiling.QuoteEndsLiteral | internal/launcher/scripts.go:48 | a bare '"' after a readable start makes the literal unreadable |
| Tiling.RowCells | internal/launcher/scripts.go:42 | one row holds one placement per column |
| Tiling.RunScript | internal/launcher/scripts.go:37-52 | the script produces Tiled: an unreadable `do script` literal stops it before anything runs; otherwise cols or rows of 0 gives the division error; otherwise every row's cells left to right, rows top to bottom, each running the literal's value |
| Tiling.RunLoops | internal/launcher/scripts.go:41-52 | the nested repeat loops place exactly the cells of Rows, in row-major order |
| Tiling.TiledErrors | internal/launcher/scripts.go:37-48 | the script fails with UnreadableCommand exactly when its literal cannot be read, and with DivisionByZero exactly when it can but cols or rows is 0 |
| Tiling.CellEdges | internal/launcher/scripts.go:43-46 | the four edges one iteration computes from cellW and cellH are those of the cell at that row and column |
| Tiling.RowsLength | internal/launcher/scripts.go:41-42 | the loops place max(cols, 0) cells for each row |
| Tiling.TiledAt | internal/launcher/scripts.go:41-50 | for a readable literal, exactly rows x cols cells are placed, and cell (r, c) is placed at index r * cols + c (row-major order) |
| Tiling.RowsCommand | internal/launcher/scripts.go:48 | every window runs the same terminal command |
| Tiling.SharedEdges | internal/launcher/scripts.go:43-46 | for a readable literal, a cell's right edge is the next column's left edge, and its bottom edge is the next row's top edge |
| Tiling.FarEdges | internal/launcher/scripts.go:34-38 | before rounding, the first column starts at X1, the top row at Y1 + 25, the last column ends at X2 and the last row at Y2, so the menu bar is subtracted once |
| Tiling.ScreenEdges | internal/launcher/scripts.go:43-46 | for a readable literal, the first column's windows start at the rounded X1, the top row's at the rounded Y1 + 25, and the last column and row end at the rounded X2 and Y2 |
| Tiling.LaunchRunsCommandEverywhere | internal/launcher/launcher.go:36-41 | as written, for a non-empty grid: the script runs exactly when the unescaped terminal command reads as a literal; it then places rows x cols windows, each running what the literal reads as, which is the command itself exactly when the command holds no '"' and no '\\' |
| Tiling.QuoteBreaksCommand | internal/launcher/scripts.go:48 | as written, a single or double quote in the project directory means no window runs the terminal command: the script is unreadable or runs an altered command |
| Tiling.EscapedLaunchRunsCommandEverywhere | internal/launcher/launcher.go:36-41 | with the command escaped for the literal, a non-empty grid always runs and places rows x cols windows, each running exactly the terminal command |

## Left out

- The Bubble Tea program is not modelled: `View`, `selectionSummary`, `confirmView`, the two input views, and the key routing and resizing in `Update` (internal/tui/model.go:97-288). Those are rendering and widget plumbing. The list widget's selected item is an input of `Wizard.Advance`, and a text input's content after an ordinary key is an input of the sub-flow handlers.
- The list widget's width, height, title, status bar and help settings are not modelled. A list is its items, its cursor and whether filtering is on.
- `newModeList`, `newSplitLayoutList`, `AllLayouts` and `SplitLayouts` are not part of this model. Their sources are not shown. The regular and split layouts are therefore parameters of `Wizard.NewModel`.
- `Wizard.UpdateCustomLayoutInput` does not refresh the layout list from the configuration (internal/tui/model.go:619). `AllLayouts` is not part of this model.
- The two versions of the step code are reconciled as follows:
  - model.go uses nine steps (with Mode, ProjectBottom and ToolBottom), a row/column `Layout.RowCols` and three-argument `stepNumber`/`stepTitle`.
  - The shown steps.go has six steps, a Cols/Rows `Layout`, and two-argument `stepNumber`/`stepTitle`.
  - `Wizard` uses the nine steps in model.go's order, because its `>` comparisons (internal/tui/model.go:199-223, 677-701) depend on that order. The Dafny `Step` type is therefore the nine-step type, and the relative order of the six shown steps is unchanged.
  - `Steps.StepTitle` and `Steps.StepNumber` follow the two-argument code shown, so the split steps fall into its default case.
  - model.go's layouts are `LayoutCodec.GridLayout`, identified by their comma form.
  - The split-mode step tests in internal/tui/steps_test.go target a version not shown and are not modelled.
- Steps.AllTools: Go visits a map in an unspecified order. The custom commands are a sequence in the order `range` visits them, so the contract fixes the order of the custom tools only relative to that sequence. A Go map cannot hold two commands with the same name, but the sequence can, so `Steps.AllTools` and `Wizard.NewModel` are also stated for inputs with duplicate names, which the program never sees.
- The configuration is a shared pointer in Go. The sub-flows append to `cfg.Presets` and `cfg.CustomLayouts` through it. The model returns the new configuration inside the new state, so sharing a backing array with other slices is not modelled.
- LayoutCodec.ConvertLegacyLayoutID: "CxR" with a negative R panics in Go (a slice of negative length). The model returns None for it. `Wizard.ApplyPreset` and `Wizard.Advance` require a preset that does not panic (`Wizard.Applicable`). An R too large to allocate also panics in Go: `make([]string, rows)` (internal/tui/model.go:589) fails with "makeslice: len out of range" above about 2^44 rows on 64-bit targets, and it runs out of memory well before that. The model has no allocation limit and returns R copies for every R >= 0. So `LayoutCodec.LegacyExpands` and `Wizard.Applicable` also cover a preset such as "1x20000000000000", which crashes `applyPreset` in Go.
- LayoutCodec.LegacyExpands: states R copies of C for every R >= 0 up to the 64-bit maximum. For an R too large for Go to allocate (see the line above), the program panics instead.
- Wizard.Advance: the source's type assertion on the selected item would panic on an item of the wrong kind. The model requires the item to fit the current step's list (`Wizard.Fits`).
- Running `osascript` (internal/launcher/launcher.go:50-51, 96-102) is not modelled. It is process I/O: detection is given its output, or None when the command failed.
- The JXA screen-detection script (internal/launcher/scripts.go:3-22) uses floating point and `Math.round`. It is not modelled; only the line it prints is.
- `text/template` rendering and its errors in `buildTilingScript` (internal/launcher/launcher.go:73-94) are not modelled. The values handed to the template are modelled (`Launcher.LaunchData`), and the script's behaviour is modelled directly (`Tiling.RunScript`). The template pastes the terminal command into the literal unescaped; `Tiling.LaunchRunsCommandEverywhere` states what then runs, and `Launcher.EscapedLaunchData` is the corrected alternative.
- Tiling.RunScript: AppleScript's `as integer` rounding is a parameter applied to every edge alike, so the contracts hold for any rounding but do not fix its tie-breaking. AppleScript's real arithmetic is modelled as exact.
- The per-row `buildTilingScript(bounds, rowCols, termCmds)` in internal/launcher/launcher_test.go targets a version not shown and is not modelled.
- Text encoding is not modelled. A Dafny `string` is a sequence of Unicode scalar values, while Go strings are bytes that `strings.TrimSpace` and `strings.Fields` decode as UTF-8. Invalid UTF-8 has no counterpart here. Lengths count characters where Go's `len` counts bytes, for example in the length bound of `Config.Summary`. Every separator the core uses is ASCII.
- Config Load/Save (YAML file I/O), the directory scanner and main.go are not part of this model.
- The custom-layout text input's `CharLimit` of 20 (internal/tui/model.go:86) is not modelled. `Wizard.UpdateCustomLayoutInput` accepts text of any length, so it does not show that the wrapping input of the first finding (21 characters) cannot be typed into the wizard.
- The row/column `Layout.ID()` and `Layout.GenerateDesc()` called at internal/tui/model.go:608-609 are not part of this model; their source is not shown. `LayoutCodec.RowColsID` joins the counts with commas, as `convertLegacyLayoutID` does (internal/tui/model.go:593). `LayoutCodec.GenerateDesc` joins one row of "[ ]" cells per count with " / ", as the built-in descriptions do (internal/tui/steps.go:68-71).
- Tiling.LiteralValue: AppleScript's exact compile error is not modelled. A bare `"` inside the literal, a backslash at its end, or a backslash before anything other than `"`, `\`, `n`, `r` or `t` make the script unreadable (`UnreadableCommand`).
- Tiling.TiledAt, Tiling.SharedEdges and Tiling.ScreenEdges require a readable literal (`Tiling.Readable`): an unreadable script places no windows, and `Tiling.TiledErrors` states that case.

## Findings

| source | as written | input that shows it | evidently intended | confidence | as-written member | corrected member |
|---|---|---|---|---|---|---|
| internal/tui/model.go:655-668 | `total += n` adds on Go's 64-bit `int`, so the total wraps and a huge layout passes `total > 20` | "9223372036854775807,1": 2^63-1 plus 1 wraps to -2^63, and the two-row layout is accepted | a layout of more than 20 terminals is rejected whatever its counts | not executed; the input's `CharLimit` of 20 keeps this 21-character text out of the wizard | LayoutCodec.ParseRowColsAsWritten, LayoutCodec.WrapAcceptsHugeLayout | LayoutCodec.ParseRowCols, LayoutCodec.AsWrittenAgrees |
| internal/launcher/scripts.go:48 | the terminal command is pasted into `do script "..."` without escaping `"` or `\` | project directory `/projects/my "project"` (the literal ends early and the script cannot be read) or `it's` (the shell escape `'\''` puts a backslash in the literal, which AppleScript reads as an escape) | the command is escaped for the AppleScript literal, as internal/launcher/launcher_test.go:65-81 expects | not executed | Tiling.QuoteBreaksCommand, Tiling.LaunchRunsCommandEverywhere | Launcher.EscapedLaunchData, Tiling.EscapedLaunchRunsCommandEverywhere |

