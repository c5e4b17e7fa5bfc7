# FinBoard dashboard components — a Dafny model

FinBoard is a client-side dashboard builder. A user points a widget at a JSON HTTP API, tests
the URL, picks fields from the response, and sees the widget on a grid of cards, tables and
charts. The grid can be reordered by drag and drop, and a timer refreshes the widgets.

This project models the decision logic of three React components:

- **`DashBoard.tsx`** (module `Dashboard`). It covers:
  - the 30-second tick's choice of widgets to refresh;
  - the drag-end guard;
  - the in-place sort of the widget array by `position`;
  - the draggable index each widget gets in the sorted view;
  - the `renderWidget` dispatch on the type tag;
  - the card, table and chart counts.
- **`tabs/ConfigureTab.tsx`** (module `ConfigureTab`). It covers:
  - the "Test API" handler's guard;
  - how that handler builds the success or failure result;
  - the default field preselection;
  - the field checkboxes;
  - the cap of 40 offered fields.
- **`AddWidgetModel.tsx`** (module `AddWidgetModal`). It covers:
  - the dialog's eight state cells and their initial values;
  - the submit handler and the reset after it;
  - the display-mode wrapper;
  - `canProceed` and the Add button's enabling condition.

The components call into code that is not part of this model: the widget store
(`addWidget`, `reorderWidgets`, `refreshWidget`), the API client (`apiClient.fetch`), the field
extractor (`extractFields`) and the dialog's `onClose` callback. Module `Collaborators` gives
their data shapes as Dafny values. Every call into them becomes an entry appended to a
`CallLog`. The model assumes nothing about what these calls do, except that each one
returns normally. What `extractFields` returns is an input to the model, a sequence of `Field(path, fieldType, value)`. How the awaited fetch
ends is also an input, a `FetchOutcome`.

The forms follow the code:
- Each `useState` cell of the dialog is a field of the class `AddWidgetForm`. `State()` gives a
  `FormState` snapshot, and every handler's postcondition states the whole new snapshot.
- `handleTestApi` awaits in the middle. It is split at the `await`:
  - `HandleTestApi` does the synchronous part. It returns the `Probe` that the closure
    captured: the URL and the display mode at the time of the click.
  - `CompleteTestApi` does the rest. It picks the default selection for the captured mode, as
    the closure does, even if the mode changed while the fetch was pending.
- The tick's `forEach` and the array `.sort` are methods with loops, proved against the
  functions `TickCalls` and `SortedByPosition`.
- The selection logic, the result construction and the counts are functions with lemmas.

Some facts about the code that shape the model:
- `renderWidget` has a default branch, so the widget type is a free string.
- The tick ignores each widget's `refreshInterval`.
- The dialog's submit handler does not check that a field is selected. Only the Add button
  checks this.
- The refresh interval is stored as entered, with no clamping to a floor or a ceiling.

The dialog imports its configure tab from `@/features/builder/tabs/Configure`
(`AddWidgetModel.tsx:10`), not from `tabs/ConfigureTab.tsx`. The model takes the two to be
the same component, because the props the dialog passes match the props that
`ConfigureTab.tsx:24-38` declares. `ConfigureTabState` therefore changes the cells of
`AddWidgetForm`, and module `WidgetBuilder` runs the two together.

Two facts about the dialog's guards are proved as witnesses:
- `EnabledButtonMayNotSubmit`: the URL can be cleared after a successful test. The Add
  button then stays enabled, but a press does nothing.
- `SubmitIgnoresSelection`: the submit handler alone would accept an empty selection.

## Model

| member | source | states |
|---|---|---|
| `Dashboard.Eligible` | src/components/dashboard/DashBoard.tsx:22 | a widget is refreshed by a tick when it is not loading and its URL is non-empty |
| `Dashboard.TickCalls` | src/components/dashboard/DashBoard.tsx:21-24 | a tick makes no more calls than there are widgets, and each call is `refreshWidget` |
| `Dashboard.RefreshTick` | src/components/dashboard/DashBoard.tsx:20-25 | one tick appends exactly `TickCalls(widgets)` to the store's call log, walking the captured collection in order |
| `Dashboard.EligibleIndices` | src/components/dashboard/DashBoard.tsx:21-24 | the indices of the widgets that are not loading and have a non-empty URL: each such index, ascending, once, and no other |
| `Dashboard.TickRefreshesEligibleInOrder` | src/components/dashboard/DashBoard.tsx:21-24 | the k-th call of a tick is `refreshWidget` of the k-th eligible widget, so a tick refreshes exactly the eligible widgets, once each, in collection order |
| `Dashboard.TickRefreshesEachEligibleOnce` | src/components/dashboard/DashBoard.tsx:21-24 | with distinct ids, each widget's id is refreshed once if it is eligible and never otherwise; in particular a loading widget is never refreshed |
| `Dashboard.TickSkipsUnknownIds` | src/components/dashboard/DashBoard.tsx:23 | a tick refreshes only ids that some widget of the collection carries |
| `Dashboard.HandleDragEnd` | src/components/dashboard/DashBoard.tsx:31-34 | a drop without a destination makes no call; otherwise exactly one `reorderWidgets(source.index, destination.index)`, with the indices unchanged |
| `Dashboard.RenderWidget` | src/components/dashboard/DashBoard.tsx:36-48 | `card`, `table` and `chart` each render their own component holding the widget, whose tag is the widget's type; any other type renders nothing |
| `Dashboard.SwapAdjacent` | src/components/dashboard/DashBoard.tsx:116 | one exchange of neighbouring widgets keeps the same widgets and touches no other place |
| `Dashboard.SortByPosition` | src/components/dashboard/DashBoard.tsx:115-116 | the widget array is reordered in place into ascending `position` order and keeps exactly the same widgets (a permutation) |
| `Dashboard.SortedViewIsUnique` | src/components/dashboard/DashBoard.tsx:115-116 | with distinct positions, two position-sorted arrangements of the same widgets are equal, so the grid does not depend on the stored order |
| `Dashboard.SortedHeadsAgree` | src/components/dashboard/DashBoard.tsx:116 | two position-sorted arrangements of the same widgets with distinct positions start with the same widget |
| `Dashboard.RenderGrid` | src/components/dashboard/DashBoard.tsx:115-136 | the grid shows a permutation of the widgets sorted by position; the widget at place i gets draggable id = its id, index i, and its rendered component |
| `Dashboard.CountOfType` | src/components/dashboard/DashBoard.tsx:196-206 | a per-type count never exceeds the number of widgets |
| `Dashboard.TypeCountsAddUp` | src/components/dashboard/DashBoard.tsx:191-206 | the card, table and chart counts together never exceed the total, and they equal it exactly when every widget has one of the three types |
| `ConfigureTab.ConfigureTabState.constructor` | src/components/dashboard/tabs/ConfigureTab.tsx:55 | the tab starts with no test running |
| `ConfigureTab.ConfigureTabState.TestButtonEnabled` | src/components/dashboard/tabs/ConfigureTab.tsx:165 | the Test API button's enabling condition: a non-empty URL while no test runs |
| `ConfigureTab.ConfigureTabState.HandleTestApi` | src/components/dashboard/tabs/ConfigureTab.tsx:73-80 | with an empty URL nothing changes and no fetch is made; otherwise the tab is testing, the previous result is cleared, and one fetch of the URL is issued; a press while the Test API button is enabled always issues the fetch |
| `ConfigureTab.ConfigureTabState.CompleteTestApi` | src/components/dashboard/tabs/ConfigureTab.tsx:79-112 | on success the result is stored and the selection becomes the defaults for the mode captured at the click; on failure the failed result is stored and the selection is kept; the testing flag is cleared either way; nothing else changes |
| `ConfigureTab.ResultOf` | src/components/dashboard/tabs/ConfigureTab.tsx:83-109 | success exactly when the fetch returned; then the fields are the extracted ones in order with the payload kept; on failure no fields and the error's message, or the fixed fallback message if what was thrown is not an `Error` |
| `ConfigureTab.SuccessMessageReportsCount` | src/components/dashboard/tabs/ConfigureTab.tsx:85 | the success message is the fixed prefix, the field count in decimal, and the fixed suffix, and the count reads back from it |
| `Decimal.NatToString` | src/components/dashboard/tabs/ConfigureTab.tsx:85 | the decimal numeral of the count is non-empty, all digits, and has no leading zero |
| `Decimal.DecimalRoundTrip` | src/components/dashboard/tabs/ConfigureTab.tsx:85 | reading the printed numeral back gives the count |
| `Decimal.NatToStringInjective` | src/components/dashboard/tabs/ConfigureTab.tsx:85 | different counts print different numerals |
| `ConfigureTab.FindType` | src/components/dashboard/tabs/ConfigureTab.tsx:97-98 | `find` by type tag: the first field of that type, or none when no field has it |
| `ConfigureTab.Paths` | src/components/dashboard/tabs/ConfigureTab.tsx:101 | the paths of the fields, in the same order |
| `ConfigureTab.DefaultSelection` | src/components/dashboard/tabs/ConfigureTab.tsx:94-101 | the preselection after a successful test has at most four entries, each the path of one of the extracted fields |
| `ConfigureTab.DefaultSelectionLeadingPaths` | src/components/dashboard/tabs/ConfigureTab.tsx:101 | outside chart mode the default selection is the first min(4, n) field paths, in order |
| `ConfigureTab.DefaultSelectionForChart` | src/components/dashboard/tabs/ConfigureTab.tsx:94-100 | in chart mode the defaults have at most two entries, none empty: the first string-typed path, then the first number-typed path, each present exactly when it exists and is not empty, and each belonging to a first field of its type; when both exist and are non-empty the result is exactly those two, in that order, even if they are equal |
| `ConfigureTab.RemovePath` | src/components/dashboard/tabs/ConfigureTab.tsx:220 | unchecking removes every occurrence of the path and keeps every other path that was selected |
| `ConfigureTab.RemovePathDistributes` | src/components/dashboard/tabs/ConfigureTab.tsx:220 | removal works piecewise over concatenation, so the remaining paths keep their order |
| `ConfigureTab.RemoveAbsentPath` | src/components/dashboard/tabs/ConfigureTab.tsx:220 | removing a path that is not selected leaves the selection unchanged |
| `ConfigureTab.RemovePathKeepsNoDuplicates` | src/components/dashboard/tabs/ConfigureTab.tsx:220 | removal keeps a duplicate-free selection duplicate-free |
| `ConfigureTab.ClickKeepsNoDuplicates` | src/components/dashboard/tabs/ConfigureTab.tsx:209-221 | a click flips the box shown from `includes(path)`, so a duplicate-free selection stays duplicate-free |
| `ConfigureTab.CheckThenUncheck` | src/components/dashboard/tabs/ConfigureTab.tsx:216-221 | checking appends the path at the end; unchecking it again restores the earlier selection |
| `ConfigureTab.ToggledSelection` | src/components/dashboard/tabs/ConfigureTab.tsx:216-221 | after a checkbox change the path is selected exactly when the box is checked, and every other path is selected exactly when it was before |
| `ConfigureTab.ConfigureTabState.OnFieldChecked` | src/components/dashboard/tabs/ConfigureTab.tsx:216-222 | a checkbox change sets the selection to the toggled one and changes nothing else |
| `ConfigureTab.OfferedFields` | src/components/dashboard/tabs/ConfigureTab.tsx:203-208 | checkboxes are offered only after a successful test, and then for the first min(40, n) fields of the result |
| `WidgetBuilder.CreateWidgetFlow` | src/components/dashboard/AddWidgetModel.tsx:90-119 | name, URL, a successful test that finds at least one field, and Add (then enabled) produce exactly one fetch, one `addWidget` with the preselected fields and the defaults, and one `onClose`, in that order |
| `AddWidgetModal.DisplayMode.Name` | src/components/dashboard/AddWidgetModel.tsx:39 | a display mode is passed to the store as one of the three tags `card`, `table`, `chart` |
| `AddWidgetModal.AddWidgetForm.constructor` | src/components/dashboard/AddWidgetModel.tsx:36-43 | the cells start as: empty name and URL, interval 30, mode card, theme default, no fields, tab configure, no result |
| `AddWidgetModal.AddWidgetForm.SetWidgetName` | src/components/dashboard/tabs/ConfigureTab.tsx:125 | typing a name replaces the name and nothing else |
| `AddWidgetModal.AddWidgetForm.SetApiUrl` | src/components/dashboard/tabs/ConfigureTab.tsx:160 | typing a URL replaces the URL and keeps the earlier test result |
| `AddWidgetModal.AddWidgetForm.SetRefreshInterval` | src/components/dashboard/tabs/ConfigureTab.tsx:243 | the interval is stored as given, without clamping |
| `AddWidgetModal.AddWidgetForm.SetSelectedTheme` | src/components/dashboard/AddWidgetModel.tsx:181-184 | choosing a theme replaces the theme and nothing else |
| `AddWidgetModal.AddWidgetForm.ChangeDisplayMode` | src/components/dashboard/AddWidgetModel.tsx:164-171 | a mode change sets the mode, clears the test result and the selection, and changes nothing else |
| `AddWidgetModal.AddWidgetForm.Cancel` | src/components/dashboard/AddWidgetModel.tsx:191 | Cancel calls `onClose` once and keeps every cell |
| `AddWidgetModal.AddWidgetForm.HandleSubmit` | src/components/dashboard/AddWidgetModel.tsx:90-119 | with a name, a URL and a successful test: exactly one `addWidget` with the current name, mode, URL, fields, interval and theme, every cell reset to its initial value, then `onClose`; otherwise no call and no change |
| `AddWidgetModal.SubmitAllowed` | src/components/dashboard/AddWidgetModel.tsx:91 | the submit guard needs a name, a URL and a successful test; it implies `canProceed` |
| `AddWidgetModal.CanProceed` | src/components/dashboard/AddWidgetModel.tsx:121 | `canProceed`: a non-empty name and a test result that reports success |
| `AddWidgetModal.AddButtonEnabled` | src/components/dashboard/AddWidgetModel.tsx:196 | the Add button is enabled only with a successful test, a non-empty selection and a name; it implies `canProceed` |
| `AddWidgetModal.GuardsCompared` | src/components/dashboard/AddWidgetModel.tsx:91-196 | the Add button is `canProceed` plus a non-empty selection; the submit guard is `canProceed` plus a non-empty URL; both imply `canProceed` |
| `AddWidgetModal.EnabledButtonMayNotSubmit` | src/components/dashboard/AddWidgetModel.tsx:194-197 | some state enables the Add button while the submit guard refuses it |
| `AddWidgetModal.SubmitIgnoresSelection` | src/components/dashboard/AddWidgetModel.tsx:91-93 | the submit guard accepts a state with no selected field, which the button does not |
| `AddWidgetModal.InitialFormIsInert` | src/components/dashboard/AddWidgetModel.tsx:105-113 | the reset state can neither submit nor proceed, so a second submit adds nothing |
| `AddWidgetModal.ModeChangeRequiresNewTest` | src/components/dashboard/AddWidgetModel.tsx:164-171 | right after a mode change neither the submit guard, nor `canProceed`, nor the Add button holds |

## Left out

- The widget store's internals, `apiClient.fetch` and `extractFields` are not part of this model. They are outside the three components. Calls into them are logged, and results from them are inputs. How the store assigns positions, renumbers on reorder, or handles a refresh is not modelled.
- The `setInterval`/`clearInterval` timing, the 30-second period and the effect's re-subscription are not modelled: one tick is one step over the captured collection, because timers are I/O.
- The drag-and-drop library, the JSX/CSS layout, the table's column span, dialogs and tabs are left out because they are presentation. The configure tab never calls its `setCurrentTab` prop, and the `TabsList` that would fire `onValueChange` is commented out (`AddWidgetModel.tsx:139-153`). So the model has no tab-switch operation. `HandleSubmit` still resets `currentTab` to `configure`, as line 112 does.
- The duplicate widget section behind `false &&` is left out because it is dead code. So is the empty state behind `widgets.length >= 0`, which can never be reached.
- The decoration that uses `Math.sin` is left out because it is floating-point drawing.
- `src/app/page.tsx` is a static page and `src/components/Theme/ThemeSelector.tsx` is a static list with a click callback. They have no logic to verify.
- AddWidgetModal.AddWidgetForm.SetRefreshInterval: `Number(e.target.value)` can give a fraction or `NaN`. The model stores an integer, because floating point is out of scope. The input's `min`/`max` attributes are HTML hints and are not enforced.
- Dashboard.SortByPosition: JavaScript's sort is stable. The contract states only order and permutation, not stability. With distinct positions, stability does not matter, because `SortedViewIsUnique` fixes the result.
- ConfigureTab.ResultOf: `fields.map` copies `path`, `type` and `value`. The extractor's output is modelled with exactly those three members. Any other members it has are not modelled.
- The "Use" buttons of the suggested APIs set the URL. They are the same operation as `SetApiUrl`.
- The Test API button's disabled state also checks `isTestingApi`; the handler's own guard checks only the URL.
- The store calls (`addWidget`, `refreshWidget`, `reorderWidgets`) and `onClose` are taken to return without throwing. If `addWidget` threw synchronously, `handleSubmit` would stop before the reset and before `onClose`. If `refreshWidget` threw, the tick's `forEach` would stop part-way. The model does not capture either case.
- React's render and batching order is not modelled. Each handler is one atomic step, and a stale closure appears only as the captured `Probe`.
