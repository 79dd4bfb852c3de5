# Test-plan selection and export settings, in Dafny

This project models two parts of a small test-management front end.

- **The selection cascade of the plan tree.** The tree shows test plans, their test suites (nested to any depth) and the test cases each suite owns. Every node has a checkbox. The component keeps three ordered id lists: selected plans, suites and cases. Clicking a checkbox flips the node's own id in its list. A plan or suite also takes its whole subtree along in the same direction: every nested suite and every case of those suites. Suites are found anywhere in the forest by a depth-first search. A separate set records which nodes are expanded.
- **The export settings.** The settings panel builds a new settings record for each control it offers. The selection summary stores that record and then normalises it. Under a print design other than `custom`, the ten "fields to include" flags are replaced by the design's fixed preset. The export button is enabled only while something is selected.

Layout:

- `types.dfy`: the entities (`TestCase`, `TestSuite`, `TestPlan`, `SelectionState`) and the settings record (`ExportSettings`, `FieldsToInclude`). An absent `childSuites` is the empty sequence.
- `id_lists.dfy`: the two list primitives everything is built from. "Push unless already included" is `Push` / `AddAll`; the order-preserving filter is `RemoveAll`.
- `forest.dfy`: the pre-order walk `Flatten` and the id walks derived from it. It also holds the suite search, proved equal to a linear search over the walk.
- `plan_tree.dfy`: `Toggle`, a declarative statement of one click. The class `TestPlanTree` performs the click step by step, with the helpers' loops, and is proved to produce exactly `Toggle`.
- `plan_tree_properties.dfy`: what a click does, stated about `Toggle`.
- `settings_panel.dfy`: the panel's record updates, plus the event each control emits.
- `selection_summary.dfy`: the initial settings, the design presets, `hasSelection`, and the class holding the settings.
- `mock_data.dfy`: the demonstration forest (ids, names, states, priorities, nesting), with worked examples.

The component's `handleSelect` works on a copy of the selection and ends by storing it. In the model, `HandleSelect` builds the new value in a local variable and assigns `selectedNodes` once. The cascade helpers receive the selection and hand back the updated one; they are static methods with `for` loops over the suites and cases.

A plan click inlines the same per-suite body that `selectChildSuites` / `deselectChildSuites` run. The model therefore calls those helpers on the plan's suites.

One might expect a second click to undo the first; the source does not behave that way and the model follows the source. Clicking a plan or suite twice does **not** in general restore the earlier selection: the second click also unchecks descendants that were checked before the first click (`MockData.PlanClickTwiceForgetsEarlierChoices`). Starting from an unchecked plan or suite, two clicks restore the selection exactly when nothing in its subtree was checked before (`PlanTreeProperties.PlanClickTwice`, `PlanTreeProperties.SuiteClickTwice`). Only for a case is a second click guaranteed to restore the selection, as a set of ids. It restores it exactly, order included, if and only if the case was unchecked at first or was checked only once, at the end of the case list, since the second click appends it again at the end (`PlanTreeProperties.ToggleCaseTwice`).

## Model

| member | source | states |
|---|---|---|
| IdLists.Push | src/components/TestPlanTree.tsx:54-56 | After "push unless included" the id is present, the old list is a prefix of the new one, membership is old plus the id, and a list without repeats stays so |
| IdLists.AddAll | src/components/TestPlanTree.tsx:115-121 | Pushing a sequence of ids one by one only appends: the old list is a prefix, membership is the union, no repeats are introduced |
| IdLists.RemoveAll | src/components/TestPlanTree.tsx:131-133 | The filter keeps exactly the ids not removed, in their old relative order (a subsequence), and introduces no repeats |
| IdLists.AddAllConcat | src/components/TestPlanTree.tsx:114-126 | Pushing two batches in turn equals pushing their concatenation, which is why the per-suite loop adds the whole pre-order walk |
| IdLists.RemoveAllConcat | src/components/TestPlanTree.tsx:130-138 | Filtering two batches in turn equals filtering their concatenation |
| IdLists.RemoveAllOfAddAll | src/components/TestPlanTree.tsx:114-138 | Filtering out a superset of the ids just pushed gives the same list as filtering the list before the push |
| IdLists.RemoveAllPrefixKept | src/components/TestPlanTree.tsx:131-133 | Filtering out the tail of a repeat-free list leaves exactly its head |
| Forest.Flatten | src/components/TestPlanTree.tsx:113-158 | The pre-order walk of the helpers and of the search starts from every suite it is given |
| Forest.FirstWithId | src/components/TestPlanTree.tsx:149-158 | Reference search: None exactly when no suite of the list has the id; otherwise a member of the list carrying that id |
| Forest.FirstWithIdIsEarliest | src/components/TestPlanTree.tsx:150-151 | The suite returned is the earliest one with the id: no suite before it carries the id |
| Forest.FindTestSuiteRecursive | src/components/TestPlanTree.tsx:149-158 | The depth-first search returns the first suite with the id in pre-order (node before its children, earlier siblings first), and null iff no suite of the subtree has it |
| Forest.FindTestSuite | src/components/TestPlanTree.tsx:141-147 | Trying the plans in order equals the first match over all plans' suites in pre-order |
| Forest.FindPlan | src/components/TestPlanTree.tsx:36 | `find` returns the first plan carrying the id, and nothing iff no plan carries it |
| ForestFacts.FlattenClosedUnderChildren | src/components/TestPlanTree.tsx:123-125 | The recursion reaches the children of every suite it visits, so every descendant at any depth |
| ForestFacts.SubtreeIdsListed | src/components/TestPlanTree.tsx:113-139 | Every suite reached, and every case it owns, has its id in the walked id lists |
| PlanTree.Flipped | src/components/TestPlanTree.tsx:18-26 | The given id's expansion flips and every other id's is unchanged |
| PlanTree.FlippedTwice | src/components/TestPlanTree.tsx:18-26 | Two flips of the same id give the set back |
| PlanTree.SelectSubtree | src/components/TestPlanTree.tsx:113-127 | The effect of `selectChildSuites`: ids are only appended, the suite and case lists end holding exactly the old ids and the subtree's, plans untouched |
| PlanTree.DeselectSubtree | src/components/TestPlanTree.tsx:129-139 | The effect of `deselectChildSuites`: each list keeps exactly its old ids outside the subtree, as a subsequence, plans untouched |
| PlanTree.Toggle | src/components/TestPlanTree.tsx:28-111 | The declarative click: whatever the node type, its own id's membership flips (the cascades are stated in `PlanTreeProperties`) |
| PlanTree.SelectSubtreeStep | src/components/TestPlanTree.tsx:114-126 | One round of the per-suite loop (push the suite id if absent, push its case ids, recurse into its children) extends the cascade over the first `i` suites to the first `i + 1` |
| PlanTree.DeselectSubtreeStep | src/components/TestPlanTree.tsx:130-138 | One round of the per-suite filtering loop extends the deselection over the first `i` suites to the first `i + 1` |
| PlanTree.TestPlanTree.constructor | src/components/TestPlanTree.tsx:11-16 | Nothing expanded, all three selection lists empty |
| PlanTree.TestPlanTree.ToggleExpanded | src/components/TestPlanTree.tsx:18-26 | The expanded set becomes the flipped set; only `expandedNodes` changes |
| PlanTree.TestPlanTree.HandleSelect | src/components/TestPlanTree.tsx:28-111 | The step-by-step click leaves exactly `Toggle` of the old selection; only `selectedNodes` changes |
| PlanTree.TestPlanTree.SelectTestCases | src/components/TestPlanTree.tsx:88-92 | The loop pushing a suite's case ids yields the old cases followed by the new ones not yet present |
| PlanTree.TestPlanTree.DeselectTestCases | src/components/TestPlanTree.tsx:76-78 | The loop filtering a suite's case ids yields the old list without them |
| PlanTree.TestPlanTree.SelectChildSuites | src/components/TestPlanTree.tsx:113-127 | Selects every suite and case id of the subtrees, in pre-order, appending only absent ids; plans untouched |
| PlanTree.TestPlanTree.DeselectChildSuites | src/components/TestPlanTree.tsx:129-139 | Filters out every suite and case id of the subtrees; plans untouched |
| PlanTreeProperties.SelectPlanCascades | src/components/TestPlanTree.tsx:48-66 | Checking an unchecked plan appends its id and checks every suite and case below the first plan with that id, at any depth, and nothing else |
| PlanTreeProperties.DeselectPlanCascades | src/components/TestPlanTree.tsx:33-47 | Unchecking a checked plan removes its id and every suite and case id below it; every other plan, suite and case id keeps its membership |
| PlanTreeProperties.ToggleSuiteKeepsPlans | src/components/TestPlanTree.tsx:70-98 | A suite click never changes the plan list, so ancestors are untouched |
| PlanTreeProperties.SelectSuiteCascades | src/components/TestPlanTree.tsx:83-97 | Checking a suite checks it, its cases and every nested suite with their cases, and nothing else |
| PlanTreeProperties.DeselectSuiteCascades | src/components/TestPlanTree.tsx:71-82 | Unchecking a suite removes it, its cases and every nested suite with their cases; all else keeps its membership |
| PlanTreeProperties.ToggleCaseIsLocal | src/components/TestPlanTree.tsx:100-106 | A case click changes only the case list, and there only the case's own membership |
| PlanTreeProperties.ToggleCaseTwice | src/components/TestPlanTree.tsx:100-106 | Two clicks on a case restore the set of case ids; they restore the exact selection if and only if the case was unchecked at first or occurred only once, at the end of the case list |
| PlanTreeProperties.ToggleUnknownCascadesNothing | src/components/TestPlanTree.tsx:33-98 | An id no plan (or no suite) carries still flips its own membership, every other id of its list keeps its membership, and the other lists stay as they were |
| PlanTreeProperties.PlanClickTwice | src/components/TestPlanTree.tsx:33-66 | From an unchecked plan, two clicks restore the selection exactly when no suite or case below it was checked before |
| PlanTreeProperties.SuiteClickTwice | src/components/TestPlanTree.tsx:70-98 | From an unchecked suite, two clicks restore the selection exactly when neither it nor any suite or case below it was checked before |
| PlanTreeProperties.ToggleKeepsDistinct | src/components/TestPlanTree.tsx:28-139 | Repeat-free lists stay repeat-free after any click |
| PlanTreeProperties.ToggleKeepsOrder | src/components/TestPlanTree.tsx:28-139 | An unchecking click leaves each list a subsequence of the old one; a checking click only appends to each list |
| SettingsPanel.UpdateSettings | src/components/ExportSettings.tsx:18-20 | Each supplied key takes the supplied value, each other key keeps its value |
| SettingsPanel.UpdateNothing | src/components/ExportSettings.tsx:18-20 | An update supplying no key gives the settings back |
| SettingsPanel.UpdateSettingsIdempotent | src/components/ExportSettings.tsx:18-20 | Applying the same update twice equals applying it once |
| SettingsPanel.WithField | src/components/ExportSettings.tsx:25-28 | The named flag takes the given value |
| SettingsPanel.WithFieldKeepsOthers | src/components/ExportSettings.tsx:25-28 | The other nine flags keep their values |
| SettingsPanel.UpdateFieldsToInclude | src/components/ExportSettings.tsx:22-30 | Sets the named flag; the other nine flags and the four other settings are unchanged |
| SettingsPanel.FieldCheckboxesEnabled | src/components/ExportSettings.tsx:104 | The flag checkboxes are enabled exactly under `summary`, `compact` and `custom`, disabled under `detailed` |
| SettingsPanel.Emitted | src/components/ExportSettings.tsx:67-153 | A control emits nothing exactly when it is a flag checkbox under `detailed`; a flag edit emits a record with that flag set; any other edit keeps the flags |
| Summary.PresetFields | src/components/SelectionSummary.tsx:45-93 | `custom` has no preset; `detailed` turns all ten flags on; `summary` keeps exactly description, steps, expected result, priority and outcome; `compact` exactly steps, priority and outcome |
| Summary.InitialExportSettings | src/components/SelectionSummary.tsx:13-30 | `detailed`, unexecuted cases included, all ten flags on, original order, grouped by suite |
| Summary.HasSelection | src/components/SelectionSummary.tsx:32-35 | True exactly when some selection list is non-empty |
| Summary.ApplyDesignPreset | src/components/SelectionSummary.tsx:41-94 | Design, inclusion, order and grouping come from the incoming record; `detailed` turns all flags on; `summary` and `compact` set exactly their preset flags; `custom` keeps the record unchanged |
| Summary.ApplyDesignPresetIdempotent | src/components/SelectionSummary.tsx:41-94 | Normalising an already-normalised record changes nothing |
| Summary.InitialSettingsNormalised | src/components/SelectionSummary.tsx:13-60 | The initial record already agrees with the `detailed` preset |
| Summary.FlagEditPersistsOnlyUnderCustom | src/components/SelectionSummary.tsx:41-93 | A flag edit followed by normalisation keeps the edited value for every value exactly when the design is `custom` |
| Summary.FlagEditOverwritten | src/components/SelectionSummary.tsx:45-92 | Outside `custom`, normalising after a flag edit equals normalising without it |
| Summary.ChoosingDetailedSetsAllFlags | src/components/SelectionSummary.tsx:45-60 | Choosing `detailed` yields all ten flags on, whatever they were |
| Summary.Step | src/components/SelectionSummary.tsx:129-132 | One panel edit handed to `handleSettingsChange`: only choosing a design changes the design, and a normalised record stays normalised |
| Summary.Run | src/components/SelectionSummary.tsx:129-132 | A sequence of panel edits ends with the last design chosen, or the starting design when none is chosen |
| Summary.RunKeepsNormalised | src/components/SelectionSummary.tsx:41-94 | From a normalised record, every sequence of panel edits leads to a normalised record; under `detailed` all flags are on |
| Summary.SelectionSummary.constructor | src/components/SelectionSummary.tsx:13-30 | Holds the initial settings |
| Summary.SelectionSummary.HandleSettingsChange | src/components/SelectionSummary.tsx:41-94 | The held record becomes the incoming record with the design's preset applied |
| Summary.SelectionSummary.OnPanelEdit | src/components/SelectionSummary.tsx:128-132 | A panel edit routed through `onSettingsChange` leaves the held record at the next normalised state, or unchanged when the control is disabled |
| SummaryFacts.CheckingEnablesExport | src/components/SelectionSummary.tsx:32-35 | Checking any unchecked node enables the export button |
| MockData.FindsNestedSuite | src/data/mockData.ts:113-139 | The search finds `ts-3`, nested inside `ts-2` of the first plan |
| MockData.FirstPlanWalk | src/data/mockData.ts:13-139 | The first plan's suites in pre-order are `ts-1`, `ts-2`, `ts-3`, with cases `tc-1` to `tc-6` |
| MockData.SelectFirstPlan | src/components/TestPlanTree.tsx:48-66 | Checking `tp-1` from nothing selects `ts-1`..`ts-3` and `tc-1`..`tc-6`, in pre-order |
| MockData.DeselectSuiteUnderSelectedPlan | src/components/TestPlanTree.tsx:70-82 | Then unchecking `ts-2` drops `ts-2`, `ts-3`, `tc-4`..`tc-6` while `tp-1` stays checked |
| MockData.PlanClickTwiceForgetsEarlierChoices | src/components/TestPlanTree.tsx:33-66 | Two clicks on `tp-1` starting from only `ts-1` checked do not give that selection back |

## Left out

- Rendering: the tree's JSX, the node widget, the panel markup and the summary's count tiles. They display state and compute nothing that the model needs.
- The export action in `src/App.tsx`: it reads the clock, serialises to JSON and triggers a browser download, which is I/O. It ignores the settings record, so no filtering, sorting, grouping or field projection of cases exists to be modelled.
- React mechanics: state hooks, update batching, the two successive `setExportSettings` calls and the `onSelectionChange` callback. Each handler is modelled as producing its final state.
- Aliasing through the shallow copy of the selection. `push` in `handleSelect` also changes arrays still shared with the previous state; the model gives the selection a single owner and builds each new value fresh.
- The unused `selected` / `expanded` flags on nodes; no logic reads them. The demonstration data keeps only ids, names, suite types, lifecycle states (`Active` / `Inactive`), priorities and nesting; the case attributes description, preconditions, steps, expected result, variables, tags, automation status, last execution date and outcome, the suite descriptions, and the plan description and dates are None.
- The panel's open/closed toggle and the summary's `showSettings` flag: pure display state.
- A "two clicks restore the selection" property for plans and suites in general: the source does not have it (see above). What is stated instead is the exact condition under which it holds from an unchecked node, and a counterexample.
