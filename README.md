# Perses time-series tooltip: a Dafny model

This project models the core of the Perses time-series tooltip and proves properties about it:

- **Nearby-series resolver** (`ui/components/src/TimeSeriesTooltip/nearby-series.ts`). Given the cursor in grid coordinates, it decides:
  - which series' points are "nearby";
  - which of them are emphasized;
  - which highlight and downplay commands go to the chart renderer.

  It also covers `getYBuffer`, `isWithinPercentageRange` and `getNearbySeriesData`.
- **Chart data model** (`ui/components/src/model/graph.ts`):
  - line values are a number, null or the gap marker `'-'`;
  - series data is either line values or annotation datums;
  - the series type tag is optional;
  - the scan limit is 1000.
- **Tooltip session** (`ui/components/src/TimeSeriesTooltip/TimeSeriesTooltip.tsx`):
  - the pinned position and the show-all flag, kept as a class whose methods update them;
  - the early-exit guards;
  - plugin activation;
  - the rule for offering the "show all" toggle.
- **Saved-variable drift check** (`ui/dashboards/src/context/TemplateVariableProvider/utils.ts`, `checkSavedDefaultVariableStatus`).
- **Default-datasource rules** (`internal/api/shared/validate/validate.go`). A dashboard may have only one default datasource per plugin kind. A stand-alone datasource may not become a second default of its kind.

Modules:

- `Wrappers`: `Option`.
- `Graph`: the chart data types.
- `NearbySeries`: the resolver. Its imperative methods are proved equal to recursive specification functions.
- `NearbySeriesProofs`: what the resolver promises.
- `TimeSeriesTooltip`: the session.
- `TemplateVariables`: the drift check.
- `Validate`: the datasource rules.

The resolver sends commands with `dispatchAction`; here they are returned in order as a list of `ChartAction`s. The chart instance enters as a `ChartInstance` value with these oracles:

- whether its model exists;
- the y-axis tick interval;
- the grid hit test;
- the two pixel-to-grid conversions.

`formatValue` together with its unit is a function parameter `format`. The element under the pointer is a `Target`. Its `inChart` flag says whether the element's grandparent is the chart's DOM node. The resolver can throw a JavaScript TypeError when it reads `data[0].value[0]` on a `'scatter'` series that has no annotation datum. This is modelled as the outcome `TypeErrorThrown`, and the tooltip then renders `RenderError`.

Three behaviours of the code that a reader may not expect, which the model follows:

- Unpinning only clears the pinned position. It does not reset `showAllSeries` (TimeSeriesTooltip.tsx:121-126).
- Line entries never carry a series type, because the code leaves `seriesType` undefined for them. A tooltip plugin triggered by `"line"` therefore never takes over.
- Every entry is named `"test"`, because that name is hard-coded (nearby-series.ts:93).

## Model

| member | source | states |
|---|---|---|
| NearbySeries.IsScatterSeries | ui/components/src/TimeSeriesTooltip/nearby-series.ts:52-54 | a series is an annotation series exactly when its type tag is `'scatter'`; it is the only series-type test on the annotation branch; that branch also needs a finite events cursor |
| NearbySeries.IsWithinPercentageRange | ui/components/src/TimeSeriesTooltip/nearby-series.ts:287-300 | the value lies between the base minus and the base plus `percentage`/100 of the base (signed, not its magnitude) |
| NearbySeries.GetYBuffer | ui/components/src/TimeSeriesTooltip/nearby-series.ts:305-329 | 10 intervals when showing all series, otherwise the larger of 0.3 intervals and 5.5 intervals (up to five series) or 30 intervals shared among the series; for a non-negative interval, never below the 0.3-interval floor |
| NearbySeries.PercentRangeToCheck | ui/components/src/TimeSeriesTooltip/nearby-series.ts:141-142 | the emphasis band in percent: the larger of 2 (more than five series) or 5 and 100/n, so never below 2 percent nor below 100/n percent |
| NearbySeries.ToMilliseconds | ui/components/src/TimeSeriesTooltip/nearby-series.ts:162 | a timestamp above 99999999999 is taken as milliseconds, anything else as seconds and multiplied by 1000 |
| NearbySeries.DownplayEach | ui/components/src/TimeSeriesTooltip/nearby-series.ts:150-158 | issues one per-series downplay command for each non-emphasized index, in order |
| NearbySeries.AppendEntry | ui/components/src/TimeSeriesTooltip/nearby-series.ts:148-176 | pushing one entry extends `nearbySeriesIndexes`, `emphasizedSeriesIndexes` and `nonEmphasizedSeriesIndexes` by exactly that entry's contribution |
| NearbySeries.PushLineEntry | ui/components/src/TimeSeriesTooltip/nearby-series.ts:139-177 | a matched datum appends its line entry; the three index lists and the per-series downplays stay the projections of the entry list |
| NearbySeries.ScanLineValues | ui/components/src/TimeSeriesTooltip/nearby-series.ts:133-180 | the datum loop appends exactly the line entries of the series (specified by `LineEntriesUpTo`) and keeps the index lists in step |
| NearbySeries.ScanSeries | ui/components/src/TimeSeriesTooltip/nearby-series.ts:99-180 | one series contributes its annotation entry, then its line entries; it throws exactly when the scatter branch meets a series that has no first annotation datum |
| NearbySeries.Resolve | ui/components/src/TimeSeriesTooltip/nearby-series.ts:60-211 | an undefined cursor coordinate yields no entries and no commands; without a chart no command is issued |
| NearbySeries.ScanFrozenAtLimit | ui/components/src/TimeSeriesTooltip/nearby-series.ts:86-88 | once 1000 entries are collected, the remaining series do not change the result |
| NearbySeries.ScanThrownSticks | ui/components/src/TimeSeriesTooltip/nearby-series.ts:99-105 | once the scan has thrown, the whole resolution throws |
| NearbySeries.CheckForNearbySeries | ui/components/src/TimeSeriesTooltip/nearby-series.ts:60-211 | the nested loops with the limit, the early break and the final downplay/highlight compute exactly `Resolve` |
| NearbySeries.ClearHighlights | ui/components/src/TimeSeriesTooltip/nearby-series.ts:271-280 | downplays series 0 to n-1 one by one, in order |
| NearbySeries.NearbySeriesData | ui/components/src/TimeSeriesTooltip/nearby-series.ts:217-232 | with no chart or no pointer, nothing is reported and no command is issued |
| NearbySeries.GetNearbySeriesData | ui/components/src/TimeSeriesTooltip/nearby-series.ts:217-282 | the pin override, the target check, the model check, the grid test and the clearing loop compute exactly `NearbySeriesData` |
| NearbySeriesProofs.YBufferFewSeries | ui/components/src/TimeSeriesTooltip/nearby-series.ts:318-328 | for a non-negative interval, with at most five series, the buffer is 5.5 y intervals |
| NearbySeriesProofs.YBufferManySeries | ui/components/src/TimeSeriesTooltip/nearby-series.ts:318-325 | for a non-negative interval, with more than five series, the buffer is 30 intervals divided by the series count, floored at 0.3 intervals from 100 series on |
| NearbySeriesProofs.YBufferNonIncreasing | ui/components/src/TimeSeriesTooltip/nearby-series.ts:318-328 | for a non-negative interval, the buffer never grows as the series count grows (the trigger area gets smaller with more series) |
| NearbySeriesProofs.YBufferBounds | ui/components/src/TimeSeriesTooltip/nearby-series.ts:314-328 | for a non-negative interval, no buffer is below 0.3 intervals, and the show-all buffer is never narrower than the ordinary one |
| NearbySeriesProofs.PercentageRangeAsBand | ui/components/src/TimeSeriesTooltip/nearby-series.ts:287-300 | the value is within range iff percentage times base is not negative and the value's distance from the base is at most percentage times base divided by 100 |
| NearbySeriesProofs.NegativeBaseNeverWithin | ui/components/src/TimeSeriesTooltip/nearby-series.ts:296-299 | with a negative base and a positive percentage the bounds cross, so no value is within range |
| NearbySeriesProofs.PercentRangeClosedForm | ui/components/src/TimeSeriesTooltip/nearby-series.ts:141-142 | the emphasis band is 100/n percent up to 50 series and 2 percent beyond |
| NearbySeriesProofs.LineEntriesClosedForm | ui/components/src/TimeSeriesTooltip/nearby-series.ts:134-139 | the datum loop finds at most one point: the one at the cursor's own whole-number column |
| NearbySeriesProofs.LineEntryIsMatch | ui/components/src/TimeSeriesTooltip/nearby-series.ts:139-176 | a line point within the buffer yields an entry with the x value, the ms-scaled date, the formatted y, the emphasis flag and the yellow marker |
| NearbySeriesProofs.AnnotationEntriesOnlyFromScatter | ui/components/src/TimeSeriesTooltip/nearby-series.ts:99-105 | a series that is not a scatter series contributes no annotation entry and never throws; an annotation entry comes only from a scatter series and carries the scatter type |
| NearbySeriesProofs.SeriesEntriesSound | ui/components/src/TimeSeriesTooltip/nearby-series.ts:99-180 | a series contributes at most one entry, and that entry is a justified line or annotation match |
| NearbySeriesProofs.SeriesEntriesComplete | ui/components/src/TimeSeriesTooltip/nearby-series.ts:99-180 | a series with an annotation match contributes exactly that one entry; a series with a line match does too, unless it throws (a scatter-tagged series read under a finite events cursor without a first annotation datum) |
| NearbySeriesProofs.ScanEntriesSound | ui/components/src/TimeSeriesTooltip/nearby-series.ts:86-182 | every collected entry is justified; entries come in strictly increasing series order; there are at most 1000 and at most one per series |
| NearbySeriesProofs.ScanEntriesComplete | ui/components/src/TimeSeriesTooltip/nearby-series.ts:86-182 | while fewer than 1000 entries are collected, every match in every scanned series is among them |
| NearbySeriesProofs.ScanEntriesPrefix | ui/components/src/TimeSeriesTooltip/nearby-series.ts:86-87 | scanning the first n series reads only those series |
| NearbySeriesProofs.ScanThrowsOnMalformedScatter | ui/components/src/TimeSeriesTooltip/nearby-series.ts:99-105 | the scan throws only when the events cursor is finite and some scanned scatter series has no first annotation datum |
| NearbySeriesProofs.ResolveSound | ui/components/src/TimeSeriesTooltip/nearby-series.ts:60-211 | each returned entry is a line match or an annotation match for the cursor; entries are in series order, at most 1000 and at most one per series |
| NearbySeriesProofs.ResolveComplete | ui/components/src/TimeSeriesTooltip/nearby-series.ts:60-211 | when fewer than 1000 entries are returned, every series with a match is reported with that match |
| NearbySeriesProofs.ResolveIgnoresSeriesPastLimit | ui/components/src/TimeSeriesTooltip/nearby-series.ts:86-88 | once the first i series yield 1000 entries, replacing the later series changes neither the entries nor the commands |
| NearbySeriesProofs.ResolveThrowsOnlyOnMalformedScatter | ui/components/src/TimeSeriesTooltip/nearby-series.ts:99-105 | a TypeError needs a finite events cursor and a scatter series with no first annotation datum |
| NearbySeriesProofs.LineIndexesMembership | ui/components/src/TimeSeriesTooltip/nearby-series.ts:176 | a series index is in `nearbySeriesIndexes` iff some line entry carries it |
| NearbySeriesProofs.ClosestIndexesMembership | ui/components/src/TimeSeriesTooltip/nearby-series.ts:148-149 | a series index is in `emphasizedSeriesIndexes` iff some emphasized line entry carries it |
| NearbySeriesProofs.NotClosestIndexesMembership | ui/components/src/TimeSeriesTooltip/nearby-series.ts:150-151 | a series index is in `nonEmphasizedSeriesIndexes` iff some non-emphasized line entry carries it |
| NearbySeriesProofs.IndexesPartition | ui/components/src/TimeSeriesTooltip/nearby-series.ts:148-176 | on entries with one entry per series, the emphasized and non-emphasized series partition the series with a line entry |
| NearbySeriesProofs.ResolveCommands | ui/components/src/TimeSeriesTooltip/nearby-series.ts:184-207 | the commands are:<br>• the per-series downplays;<br>• a batch downplay of the non-emphasized series;<br>• a highlight of the emphasized series without blur if any line entry is emphasized, otherwise of all nearby line series with `notBlur`.<br>Also states the partition. |
| NearbySeriesProofs.NearbySeriesDataSound | ui/components/src/TimeSeriesTooltip/nearby-series.ts:232-268 | the result has no more entries than there are series, in strictly increasing series order, each untyped (line) or scatter; with a pinned position, the pointer makes no difference |
| NearbySeriesProofs.LeavingGridClearsHighlights | ui/components/src/TimeSeriesTooltip/nearby-series.ts:262-281 | on a chart that has a model, with the pointer's target on this chart or a position pinned, a pointer outside the grid, or with undefined grid coordinates, reports nothing and downplays every series one by one |
| NearbySeriesProofs.ExampleSingleSeries | ui/components/src/TimeSeriesTooltip/nearby-series.ts:133-207 | one series `[1,1,1]` with the cursor at (1,1) and buffer 0.5 yields one emphasized entry, then `downplay []` and `highlight [0]` without blur |
| NearbySeriesProofs.ExampleAnnotationHit | ui/components/src/TimeSeriesTooltip/nearby-series.ts:99-126 | an annotation at secondary-axis index 2 is reported when the events cursor is at 2, with the cyan marker and its events |
| NearbySeriesProofs.ExampleAnnotationMiss | ui/components/src/TimeSeriesTooltip/nearby-series.ts:107 | the same annotation is not reported when the events cursor is at 3 |
| TimeSeriesTooltip.PassesGuards | ui/components/src/TimeSeriesTooltip/TimeSeriesTooltip.tsx:57-60 | the early exits: a pointer and a target are needed, and an unpinned pointer must be over a `CANVAS` element |
| TimeSeriesTooltip.IsPluginActive | ui/components/src/TimeSeriesTooltip/TimeSeriesTooltip.tsx:84 | every nearby entry's series type equals the plugin's trigger; an entry without a type matches no trigger |
| TimeSeriesTooltip.ShowAllSeriesToggle | ui/components/src/TimeSeriesTooltip/TimeSeriesTooltip.tsx:102-106 | the toggle is offered on a pinned tooltip with show-all off, more than one series, and a nearby count different from the series count |
| TimeSeriesTooltip.ViewOf | ui/components/src/TimeSeriesTooltip/TimeSeriesTooltip.tsx:57-106 | nothing is drawn when a guard fails (a null pointer or target, or an unpinned pointer not over a canvas); a drawn tooltip has entries; the plugin is used iff it is active |
| TimeSeriesTooltip.CommandsOf | ui/components/src/TimeSeriesTooltip/TimeSeriesTooltip.tsx:57-74 | no renderer command is issued when a guard exits early |
| TimeSeriesTooltip.TooltipState.constructor | ui/components/src/TimeSeriesTooltip/TimeSeriesTooltip.tsx:52-53 | a fresh component has nothing pinned and show-all off |
| TimeSeriesTooltip.TooltipState.Render | ui/components/src/TimeSeriesTooltip/TimeSeriesTooltip.tsx:57-106 | computes `ViewOf` and `CommandsOf`; it pins the pointer only on the default tooltip, when pinning is requested and nothing is pinned; show-all is unchanged |
| TimeSeriesTooltip.TooltipState.Unpin | ui/components/src/TimeSeriesTooltip/TimeSeriesTooltip.tsx:121-126 | clears the pinned position and keeps `showAllSeries` |
| TimeSeriesTooltip.TooltipState.SetShowAllSeries | ui/components/src/TimeSeriesTooltip/TimeSeriesTooltip.tsx:133 | sets `showAllSeries` to the switch's value and keeps the pin |
| TimeSeriesTooltip.ToggleOfferedIffSomeSeriesHidden | ui/components/src/TimeSeriesTooltip/TimeSeriesTooltip.tsx:102-106 | the toggle is offered iff all of these hold:<br>• the tooltip is pinned;<br>• show-all is off;<br>• there are several series;<br>• fewer entries than series are shown. |
| TimeSeriesTooltip.PluginTooltipOnlyForAnnotations | ui/components/src/TimeSeriesTooltip/TimeSeriesTooltip.tsx:81-94 | a plugin tooltip appears only for the trigger `"scatter"`, and then every entry is an annotation entry |
| TimeSeriesTooltip.LinePluginNeverActive | ui/components/src/TimeSeriesTooltip/TimeSeriesTooltip.tsx:84 | a plugin triggered by `"line"` never takes over |
| TimeSeriesTooltip.PinnedViewIgnoresPointer | ui/components/src/TimeSeriesTooltip/TimeSeriesTooltip.tsx:60-74 | for pointers that have a target, while a position is pinned, the pointer's position changes neither the view nor the commands |
| TimeSeriesTooltip.PinnedSession | ui/components/src/TimeSeriesTooltip/TimeSeriesTooltip.tsx:96-126 | the first render of a fresh component is the unpinned view; when it is a default tooltip, its pin stays in place through a later render; after unpinning, the view follows the pointer again |
| TemplateVariables.IsModified | ui/dashboards/src/context/TemplateVariableProvider/utils.ts:24-36 | a list variable is modified when its store value is neither null nor its saved default; a text variable when its saved value differs from the store's string (or `''`); other kinds never |
| TemplateVariables.ModifiedNames | ui/dashboards/src/context/TemplateVariableProvider/utils.ts:20-40 | the names of the modified definitions, in definition order |
| TemplateVariables.CheckSavedDefaultVariableStatus | ui/dashboards/src/context/TemplateVariableProvider/utils.ts:20-40 | the loop returns the modified names in definition order; the flag is set iff at least one name is reported |
| TemplateVariables.ModifiedNamesAppend | ui/dashboards/src/context/TemplateVariableProvider/utils.ts:23-37 | checking a concatenation gives the names for each part, in order |
| TemplateVariables.ModifiedNamesMembership | ui/dashboards/src/context/TemplateVariableProvider/utils.ts:23-37 | a name is reported iff some list or text definition of that name disagrees with the store |
| TemplateVariables.ModifiedNamesBounded | ui/dashboards/src/context/TemplateVariableProvider/utils.ts:23-37 | at most one name is reported per definition |
| TemplateVariables.OtherKindsIgnored | ui/dashboards/src/context/TemplateVariableProvider/utils.ts:24-37 | a definition of any other kind, wherever it stands, changes nothing |
| TemplateVariables.MissingListVariable | ui/dashboards/src/context/TemplateVariableProvider/utils.ts:25-28 | a list variable missing from the store is reported unless its default is also undefined |
| TemplateVariables.NullListVariableNeverReported | ui/dashboards/src/context/TemplateVariableProvider/utils.ts:25-28 | a list variable whose store value is null is never reported |
| TemplateVariables.TextVariableWithoutString | ui/dashboards/src/context/TemplateVariableProvider/utils.ts:31-35 | a missing or non-string text value reads as `''`, so it is reported iff the saved value is not empty |
| TemplateVariables.ExampleInSync | ui/dashboards/src/context/TemplateVariableProvider/utils.ts:20-40 | definitions that match the store report nothing |
| Validate.ValidateDtsPlugin | internal/api/shared/validate/validate.go:84-89 | the plugin passes iff the HTTP proxy spec extracts and the schema set accepts it; a failing HTTP spec is reported before the schema is consulted; with the spec extracted and no schema set, the call through the nil interface is `NilSchemasPanic`; the only errors are the spec error and the schema error |
| Validate.DatasourcesOutcome | internal/api/shared/validate/validate.go:38-51 | the datasource loop fails only with a plugin error or the duplicate-default error |
| Validate.DashboardOutcome | internal/api/shared/validate/validate.go:26-54 | a failing variable order fails first; with no schema set, no schema error arises |
| Validate.SeenOneMore | internal/api/shared/validate/validate.go:44-48 | one more datasource adds its kind to the defaults seen iff it is a default |
| Validate.ValidateDashboard | internal/api/shared/validate/validate.go:26-54 | the foreign checks, then the loop with the `defaultDTS` map and its early returns, compute exactly `DashboardOutcome` |
| Validate.DatasourcesStopAtFailure | internal/api/shared/validate/validate.go:40-50 | once the loop has returned an error, later datasources do not change it |
| Validate.FirstDefaultOfKind | internal/api/shared/validate/validate.go:75-80 | finds the first listed default of the kind; none comes before it, and none at all when the result is none |
| Validate.UnicityOutcome | internal/api/shared/validate/validate.go:68-82 | only a default entity can fail, and its error names the entity and its plugin kind; the check never panics (which datasource is named, and when, is stated by `DefaultEntityFailsIff`) |
| Validate.ValidateUnicityOfDefaultDts | internal/api/shared/validate/validate.go:68-82 | the early-returning loop reports the first listed default of the entity's kind, naming both datasources |
| Validate.DatasourceOutcome | internal/api/shared/validate/validate.go:56-66 | a valid datasource has a valid plugin; a panic arises only from a missing schema set (that a nil list skips the uniqueness check is stated by `NilListSkipsUnicity`) |
| Validate.ValidateDatasource | internal/api/shared/validate/validate.go:56-66 | plugin validation first, then the uniqueness check only against a non-nil list |
| Validate.DatasourcesValidIff | internal/api/shared/validate/validate.go:38-51 | the loop succeeds iff every plugin passes and no two defaults share a kind |
| Validate.DashboardValidIff | internal/api/shared/validate/validate.go:26-54 | once the foreign checks pass, a dashboard is valid iff all its datasource plugins pass and the defaults are unique per kind |
| Validate.DuplicateDefaultFails | internal/api/shared/validate/validate.go:44-48 | two defaults of one kind make the dashboard invalid |
| Validate.PluginFailureFails | internal/api/shared/validate/validate.go:41-43 | one failing datasource plugin makes the dashboard invalid |
| Validate.DefaultKindTakenIsJustified | internal/api/shared/validate/validate.go:39-50 | the uniqueness error names a kind that has two defaults among the datasources seen, so non-defaults and defaults of distinct kinds never raise it |
| Validate.NonDefaultAlwaysUnique | internal/api/shared/validate/validate.go:71-73 | a non-default entity always passes the uniqueness check |
| Validate.DefaultEntityFailsIff | internal/api/shared/validate/validate.go:74-81 | a default entity fails iff some listed datasource is a default of its kind; the error names the first such datasource |
| Validate.NilListSkipsUnicity | internal/api/shared/validate/validate.go:60-64 | with a nil list, only the plugin checks decide |
| Validate.PluginCheckedFirst | internal/api/shared/validate/validate.go:57-59 | a failing plugin is reported before any uniqueness conflict |

## Left out

- ECharts internals in `getNearbySeriesData` become oracle fields of `ChartInstance` and the `inChart` flag of `Target`:
  - the DOM grandparent comparison;
  - the `_model` lookup of the y interval;
  - `containPixel`;
  - the two `convertFromPixel` calls.
- `dispatchAction` is not a side effect here. The commands are returned as a list in the order they would be dispatched. If the scan throws, the commands dispatched before the throw are not recorded.
- `formatValue` and `UnitOptions` are not part of this model. Formatting is the uninterpreted parameter `format`.
- `TimeSeriesValueTuple` is not part of this model. An annotation datum's value is a tuple of x index, level and optional events. Events are opaque.
- JavaScript numbers are modelled as unbounded reals, so NaN, infinities and IEEE rounding are not modelled. `Number.isFinite` on the events cursor is modelled as whether a coordinate is present.
- The line loop also runs over annotation datums, because they are arrays too. It adds an object to a number and compares, which never matches, so annotation series contribute no line entries. That coercion is not modelled beyond this.
- A `seriesIdx` or `datumIdx` of null is never produced, so both are plain numbers. The per-series `markerColor` and `name` are unused by the code, so they are not read.
- `!==` on array-valued variables is reference equality. A `TextList` carries an array identity rather than contents.
- The tooltip's rendering is presentation and is not modelled: JSX, `Portal`, MUI, `useResizeObserver`, `assembleTransform`, `useMousePosition`, `TooltipPluginContent`'s `cloneElement` fallback, and the `onUnpinClick` callback. A render that sets the pin is modelled as one state change; React's re-render that follows is not modelled.
- In Go, `dashboard.BuildVariableOrder`, the `schemas.Schemas` methods and `http.ValidateAndExtract` are foreign and enter as predicates. A `nil` schema set reaching `validateDTSPlugin` is the outcome `NilSchemasPanic`; the panic itself is not modelled.
- Validate.ValidateDtsPlugin: the errors of `http.ValidateAndExtract` and `ValidateDatasource` are foreign and returned unchanged by the code. Here they are abstracted to the tags `PluginSpecError` and `PluginSchemaError`, each carrying the plugin kind for identification; the message text is not modelled.
- A dashboard's datasources are visited in the order given. Go map iteration order is unspecified, and nil datasource pointers are not modelled.

Code that is not part of this model:

- `LineChart.stories.tsx` (fixtures);
- `statChartPanel.spec.ts` and `LegendOptionsEditor.test.tsx` (UI tests);
- the re-export files;
- `internal/cli/cmd/cmd.go` (command-line plumbing).
