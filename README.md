# GenericChart bookkeeping, modelled in Dafny

GoldenCheetah's generic chart (`GenericChart`) collects a chart's settings,
its curves (`addCurve`) and its axis configurations (`configureAxis`).
`finaliseChart` then turns these into plot widgets in three steps:

1. It groups the pending curves into plots. With `stack` set there is one
   plot per curve. Otherwise there is one plot per distinct x-axis name,
   in order of first appearance. Each plot receives the configured axes
   that `findAxis` finds for its x axis and for the y axis of each of its
   curves.
2. It reconciles the new plots with the current ones:
   - every current plot is marked `deleteme`;
   - each new plot reuses the widget of the first current plot that
     `matches` it, and that plot is marked `matched`. The test runs on
     the current plot: `findPlot` asks whether the current plot's series
     are all among the new plot's series;
   - a new plot that matches no current plot gets a new widget;
   - the widgets of current plots still marked `deleteme` are deleted.
3. It activates the new plots, makes them current, and clears the pending
   lists.

The project models this bookkeeping.
- `chart_info.dfy` (module `ChartInfo`) holds:
  - the records of `GenericChart.h`;
  - the `matches` test, as a loop method proved against the quantified
    predicate `Matches`;
  - the `findPlot` and `findAxis` searches, each as a loop method proved
    against a recursive specification function;
  - the range-tracking axis object `GenericAxisInfo(orientation, name)`
    with `point`, `min` and `max`, modelled as the class `AxisRange`.
- `generic_chart.dfy` (module `Chart`) holds:
  - the class `GenericChart`, whose methods follow the source's loops;
  - the specification functions the loops are proved against: `Grouping`,
    `Reconciled`, `FreshCount` and `Released`.
- `chart_properties.dfy` (module `ChartProperties`) proves what those
  functions guarantee.

A widget pointer (`GenericPlot*`) is modelled as a `PlotRef`: either
`NoPlot` (null) or `PlotId(n)`.
- `new GenericPlot` takes the identity `nextHandle` and increments it.
- `delete` adds the identity to the multiset `released`, once per call, so a
  widget deleted twice is counted twice.
- `FinaliseChart` states the whole new state in terms of `Grouping`,
  `Reconciled`, `FreshCount` and `Released`, applied to the old state.

The properties module shows two limits of the reconciliation as written.
- `findPlot` does not skip a current plot that another new plot has
  already matched.
- `matches` is symmetric when the matching plot's series keys are
  distinct (`MatchesSymmetricWhenDistinct`). With a repeated key it can
  fail (`MatchesNotSymmetric`).

Take stack mode with the same curve added twice. The first finaliseChart
has no current plots to match, so the two plots get new widgets 0 and 1
(`DupRoundOne`). From the second round on, both plots match the first
current plot, so both take its widget 0, and widget 1 is deleted
(`DupRoundTwo`). A later round then deletes widget 0 while a current plot
still holds it (`StackDuplicateReleasesLiveWidget`). A round with no curves
deletes widget 0 twice, once for each current plot holding it
(`DupDeletedTwice`). Widgets stay apart in these cases:
- always without `stack`;
- with `stack`, when no two curves share a key, that is the same name,
  x name and y name (`FinaliseKeepsHandlesApart`). No condition is needed
  on the keys of the current plots.

## Model

| member | source | states |
|---|---|---|
| ChartInfo.Matches | src/Charts/GenericChart.h:73-91 | specification: the x axes are equal, the series counts are equal, and every series of this plot has a series with the same name, x name and y name in the other |
| ChartInfo.CheckMatches | src/Charts/GenericChart.h:73-91 | false when the x axes differ or the series counts differ; otherwise true exactly when every series of this plot has one with the same name, x name and y name in the other |
| ChartInfo.PlotIndex | src/Charts/GenericChart.h:93-100 | -1 exactly when no plot of the list matches; otherwise an index whose plot matches, with no matching plot before it |
| ChartInfo.FindPlot | src/Charts/GenericChart.h:93-100 | the index loop with early return yields the first matching index, or -1 |
| ChartInfo.AxisIndex | src/Charts/GenericChart.h:130-135 | -1 exactly when no axis has the name; otherwise the first index whose axis has it |
| ChartInfo.FindAxis | src/Charts/GenericChart.h:130-135 | the index loop with early return yields the first axis of that name, or -1 |
| ChartInfo.AxisRange.constructor | src/Charts/GenericChart.h:137-143 | all four bounds start at 0; the axis is not fixed, not logarithmic, visible, with both grids, continuous; the ranges are well formed |
| ChartInfo.AxisRange.Point | src/Charts/GenericChart.h:145-151 | a fixed axis keeps its bounds; otherwise the point lies inside both ranges afterwards, no bound shrinks, each bound is its old value or the point's coordinate, and a bound the point already respects is unchanged |
| ChartInfo.AxisRange.Min | src/Charts/GenericChart.h:153-156 | the x minimum for a horizontal axis and the y minimum otherwise; never above `Max` on a well-formed axis |
| ChartInfo.AxisRange.Max | src/Charts/GenericChart.h:157-160 | the x maximum for a horizontal axis and the y maximum otherwise |
| Chart.IndexOf | src/Charts/GenericChart.cpp:127 | -1 exactly when the name is not in the list of x axes; otherwise its first position |
| Chart.AxisHit | src/Charts/GenericChart.cpp:112-117 | a findAxis hit attaches at most one axis; none exactly when no configured axis has the name; any attached axis is configured and has the name |
| Chart.YAxisHitsFrom | src/Charts/GenericChart.cpp:133-134 | the y axes attached to a plot are at most one per series, each a configured axis named as some series' y axis |
| Chart.NewPlot | src/Charts/GenericChart.cpp:108-117 | specification: a plot in state `init` with no widget (the `GenericPlotInfo(xaxis)` constructor, GenericChart.h:71), holding the given series, with the x axis hit first and then one y axis hit per series |
| Chart.Extended | src/Charts/GenericChart.cpp:130-134 | specification: the plot with one more series at the end and that series' y axis hit after its axes |
| Chart.DistinctXNames | src/Charts/GenericChart.cpp:102-151 | specification: the `xaxes` list, which holds each x axis name of the series once, in order of first appearance |
| Chart.OnAxis | src/Charts/GenericChart.cpp:127-130 | specification: the series drawn against one x axis name, in the order they were added |
| Chart.YAxisHits | src/Charts/GenericChart.cpp:133-134 | specification: one `findAxis` lookup per series of a plot, by its y axis name, in order; a miss attaches nothing |
| Chart.DistinctXNamesSound | src/Charts/GenericChart.cpp:124-152 | the x axis list built without `stack` holds no name twice, and holds exactly the x names of the pending series |
| Chart.OnAxisMembers | src/Charts/GenericChart.cpp:124-152 | the series joining an axis' plot are pending series on that axis, at most as many as the pending series, and every pending series on that axis is among them |
| Chart.OnAxisSound | src/Charts/GenericChart.cpp:124-152 | a non-stacked plot holds exactly the pending series on its x axis, and at least one |
| Chart.OnAxisStep | src/Charts/GenericChart.cpp:128-130 | one more series is appended to the series of its own x axis only |
| Chart.YAxisHitsStep | src/Charts/GenericChart.cpp:132-134 | one more series appends its y axis hit to the plot's axes |
| Chart.StackGroupingStep | src/Charts/GenericChart.cpp:105-121 | with `stack`, one more series adds one plot at the end |
| Chart.Grouping | src/Charts/GenericChart.cpp:101-154 | specification: with `stack`, one new plot per pending series, in order; otherwise one new plot per distinct x axis name, in order of first appearance, holding the series on that axis in order; each plot holds the x axis hit, then one y axis hit per series |
| Chart.NonStackGroupingAt | src/Charts/GenericChart.cpp:124-152 | without `stack`, there is one plot per distinct x axis name, and plot k is the new plot for the k-th name, holding the series on it |
| Chart.KnownXName | src/Charts/GenericChart.cpp:126-127 | a series on an x axis already seen adds no x axis name |
| Chart.ExtendedNewPlot | src/Charts/GenericChart.cpp:129-134 | appending a series and its y axis hit to a new plot gives the new plot built with that series included |
| Chart.SharedGroupingHit | src/Charts/GenericChart.cpp:126-134 | without `stack`, a series on a known x axis is appended to that axis' plot, together with its y axis hit, and the plot count is unchanged |
| Chart.SharedGroupingMiss | src/Charts/GenericChart.cpp:126-134 | without `stack`, a series on a known x axis leaves the plot of every other x axis unchanged |
| Chart.SharedGroupingAt | src/Charts/GenericChart.cpp:126-134 | without `stack`, a series on a known x axis extends that axis' plot and leaves every other plot unchanged |
| Chart.SharedGroupingStep | src/Charts/GenericChart.cpp:126-134 | without `stack`, a series on a known x axis updates the plot list at that axis' index only |
| Chart.NewAxisGroupingStep | src/Charts/GenericChart.cpp:136-151 | without `stack`, a series on a new x axis adds one plot, holding only it, at the end |
| Chart.FreshCount | src/Charts/GenericChart.cpp:161-166 | no more new widgets are made than there are new plots |
| Chart.AssignedRef | src/Charts/GenericChart.cpp:161-171 | specification: a new plot takes the widget of its first matching current plot; with no match, it takes the next new widget, numbered from the counter by how many earlier new plots matched nothing |
| Chart.Reconciled | src/Charts/GenericChart.cpp:157-206 | specification: the new current plots are the new plots, in order, each with its assigned widget and marked `active` |
| Chart.Marked | src/Charts/GenericChart.cpp:158-171 | specification: after the marking loops, a current plot is `matched` when some new plot matched it first, and `deleteme` otherwise |
| Chart.DeletedHandles | src/Charts/GenericChart.cpp:175-179 | specification: the multiset of widgets deleted for the plots marked `deleteme`, one entry per delete |
| Chart.Released | src/Charts/GenericChart.cpp:158-179 | specification: the widgets finaliseChart deletes, which are the deleted widgets of the marked current plots, one entry per delete |
| Chart.DeletedHandlesStep | src/Charts/GenericChart.cpp:175-178 | one step of the deletion loop adds the plot's widget exactly when the plot is marked `deleteme` and holds a widget |
| Chart.DeletedHandlesSound | src/Charts/GenericChart.cpp:175-179 | a widget is deleted exactly when some plot marked `deleteme` holds it |
| Chart.PlotIndexIgnoresState | src/Charts/GenericChart.cpp:158-161 | marking plots does not change which current plot a new plot matches first |
| Chart.FreshCountPrefix | src/Charts/GenericChart.cpp:161-166 | new widgets are numbered in the order the new plots need them |
| Chart.MatchedByStep | src/Charts/GenericChart.cpp:161-171 | handling one more new plot marks exactly its first match in addition |
| Chart.MarkedPrefixStep | src/Charts/GenericChart.cpp:168-171 | a matched current plot is marked `matched`, and no other plot changes |
| Chart.MarkedPrefixKeeps | src/Charts/GenericChart.cpp:158-170 | marking changes only states, so every current plot keeps its widget and every new plot keeps its first match |
| Chart.AssignStart | src/Charts/GenericChart.cpp:158-161 | before the matching loop, every current plot is marked `deleteme`, no new plot has a widget and no widget has been made |
| Chart.AssignDone | src/Charts/GenericChart.cpp:161-171 | after the matching loop, every new plot holds its assigned widget and the current plots are fully marked |
| Chart.AssignedPrefixStep | src/Charts/GenericChart.cpp:161-171 | a new plot takes its widget, and the count of new widgets grows by one exactly when it matched nothing |
| Chart.ReconciledBound | src/Charts/GenericChart.cpp:161-171 | after reconciling every plot holds a widget, all numbered below the new counter |
| Chart.ReleasedBound | src/Charts/GenericChart.cpp:175-179 | only widgets that already existed are deleted |
| Chart.OpenPlot | src/Charts/GenericChart.cpp:107-117 | a new plot for a series holds just that series, with the x axis hit then the y axis hit |
| Chart.AppendToPlot | src/Charts/GenericChart.cpp:129-134 | appending adds the series at the end and the y axis hit after the plot's axes |
| Chart.GroupOne | src/Charts/GenericChart.cpp:103-153 | one loop pass turns the grouping of a prefix into the grouping of the prefix plus one series, keeping `xaxes[k]` the x axis of plot k |
| Chart.GroupShared | src/Charts/GenericChart.cpp:124-152 | without `stack`, one pass joins the series to its axis' plot or opens one, keeping the list of x axes |
| Chart.GroupSeries | src/Charts/GenericChart.cpp:101-154 | the grouping loop builds exactly `Grouping` of the pending series, and `xaxes[k]` is the x axis of plot k |
| Chart.ActivateAll | src/Charts/GenericChart.cpp:182-203 | every new plot becomes active, nothing else changes |
| Chart.GenericChart.constructor | src/Charts/GenericChart.cpp:44-50 | a new chart has no pending series, axes or plots, and no widgets |
| Chart.GenericChart.InitialiseChart | src/Charts/GenericChart.cpp:54-69 | the six settings are stored, the pending series and axes are emptied, the current plots are untouched, and the result is true |
| Chart.GenericChart.AddCurve | src/Charts/GenericChart.cpp:73-80 | exactly one series is appended to the pending series, nothing else changes, and the result is true |
| Chart.GenericChart.ConfigureAxis | src/Charts/GenericChart.cpp:84-89 | exactly one axis is appended to the pending axes, nothing else changes, and the result is true |
| Chart.GenericChart.MarkAllForDeletion | src/Charts/GenericChart.cpp:158 | every current plot is marked `deleteme`, nothing else changes |
| Chart.GenericChart.AssignOne | src/Charts/GenericChart.cpp:161-171 | one pass of the matching loop: the new plot reuses its first match's widget and marks it, or takes the next new widget |
| Chart.GenericChart.AssignWidgets | src/Charts/GenericChart.cpp:161-172 | every new plot holds the widget of its first match, or a new one numbered in order; exactly the first-matched current plots are `matched` |
| Chart.GenericChart.ReleaseUnmatched | src/Charts/GenericChart.cpp:175-179 | the widget of each plot still marked `deleteme` is deleted, once per such plot, so a widget two such plots share is deleted twice |
| Chart.GenericChart.Reconcile | src/Charts/GenericChart.cpp:157-206 | the current plots become the new plots with their widgets, all active; the widget counter grows by the number of new widgets, and the deleted widgets are added to `released`; widget bookkeeping stays consistent |
| Chart.GenericChart.FinaliseChart | src/Charts/GenericChart.cpp:93-211 | the current plots become the reconciled grouping of the pending series, the pending lists are emptied, and widget bookkeeping stays consistent |
| ChartProperties.KeySetSound | src/Charts/GenericChart.h:81-90 | the series keys compared by `matches` form a set with one key per series when no key repeats |
| ChartProperties.MatchesReflexive | src/Charts/GenericChart.h:73-91 | every plot matches itself |
| ChartProperties.MatchesTransitive | src/Charts/GenericChart.h:73-91 | matching is transitive |
| ChartProperties.MatchesSymmetricWhenDistinct | src/Charts/GenericChart.h:73-91 | matching is symmetric when the first plot's series keys are distinct |
| ChartProperties.MatchesNotSymmetric | src/Charts/GenericChart.h:81-90 | with a repeated series key, one plot can match another that does not match it |
| ChartProperties.CommonMatch | src/Charts/GenericChart.h:73-91 | two plots matched by the same plot with distinct keys match each other |
| ChartProperties.StackSeriesOf | src/Charts/GenericChart.cpp:105-121 | with `stack`, the plots hold exactly the pending series, in the order they were added |
| ChartProperties.NonStackPartitionStep | src/Charts/GenericChart.cpp:124-152 | without `stack`, one more series adds it once to the series the plots hold |
| ChartProperties.NonStackPartition | src/Charts/GenericChart.cpp:124-152 | without `stack`, the plots hold every pending series exactly as often as it was added |
| ChartProperties.PartitionStep | src/Charts/GenericChart.cpp:103-153 | each loop pass adds its series to the plots exactly once |
| ChartProperties.GroupingPartition | src/Charts/GenericChart.cpp:101-154 | the plots hold every pending series exactly as often as it was added, in either mode |
| ChartProperties.StackPlacement | src/Charts/GenericChart.cpp:105-121 | with `stack`, plot i is a new `init` plot without a widget, on series i's x axis, holding exactly series i |
| ChartProperties.NonStackPlacement | src/Charts/GenericChart.cpp:124-152 | without `stack`, the plots are new, on distinct x axes, each holding only pending series on its x axis, and every series is in the plot for its x axis |
| ChartProperties.NonStackPlotAt | src/Charts/GenericChart.cpp:124-152 | without `stack`, plot k is a new plot for the k-th distinct x axis name, holding every pending series on that axis and no other |
| ChartProperties.DistinctXNamesPrefix | src/Charts/GenericChart.cpp:124-152 | the x axes seen after a prefix of the series are a prefix of all the x axes: first appearance decides the order |
| ChartProperties.NonStackOrder | src/Charts/GenericChart.cpp:124-152 | without `stack`, the plots for earlier series come first, in the same order |
| ChartProperties.OnAxisConcat | src/Charts/GenericChart.cpp:127-130 | a plot's series keep their relative order: the series of one block of curves precede those of a later block |
| ChartProperties.YAxisHitsComplete | src/Charts/GenericChart.cpp:132-134 | the configured axis found for any series' y axis is attached to its plot |
| ChartProperties.GroupingAxes | src/Charts/GenericChart.cpp:112-117 | a plot's axes are configured axes named after its x axis or a series' y axis, at most one per series plus one; the x axis hit comes first, and every y axis hit is present |
| ChartProperties.ReleasedExactly | src/Charts/GenericChart.cpp:158-179 | a widget is deleted exactly when a current plot that no new plot matched first holds it |
| ChartProperties.DistinctAxesUnambiguous | src/Charts/GenericChart.h:75 | new plots on distinct x axes never match the same current plot |
| ChartProperties.SeparatedUnambiguous | src/Charts/GenericChart.h:73-91 | new plots that do not match each other never match the same current plot, when the current plots' keys are distinct |
| ChartProperties.StackSeparatedIff | src/Charts/GenericChart.cpp:105-121 | with `stack`, no two new plots match exactly when no two pending series share a key |
| ChartProperties.FreshCountOrder | src/Charts/GenericChart.cpp:161-166 | an earlier new widget has a smaller identity than a later one |
| ChartProperties.ReconciledPairApart | src/Charts/GenericChart.cpp:161-171 | when the current plots hold distinct widgets below the counter and no current plot is matched by two new plots, any two new plots get different widgets |
| ChartProperties.ReconciledNotReleased | src/Charts/GenericChart.cpp:161-179 | when the current plots hold distinct widgets below the counter, every new plot holds a widget and none given to a new plot is deleted |
| ChartProperties.ReconcileKeepsHandlesApart | src/Charts/GenericChart.cpp:157-179 | when the current plots hold distinct widgets below the counter and no current plot is matched by two new plots, the new plots hold distinct widgets and none of them is deleted |
| ChartProperties.StackUnambiguous | src/Charts/GenericChart.cpp:105-121 | with `stack` and no two pending series sharing a key, no current plot is matched by two new plots, whatever the current plots are |
| ChartProperties.FinaliseKeepsHandlesApart | src/Charts/GenericChart.cpp:101-206 | starting from distinct widgets below the counter, one finalise round keeps the widgets distinct and below the new counter, and deletes none of the new plots' widgets; this holds always without `stack`, and with `stack` when no two pending series share a key |
| ChartProperties.FreshCountNone | src/Charts/GenericChart.cpp:161-166 | no widget is created when every new plot has a match |
| ChartProperties.ReuseFirstMatch | src/Charts/GenericChart.cpp:161-162 | when no two current plots match each other, a new plot with the x axis and series of current plot k first matches plot k |
| ChartProperties.ReuseInPlace | src/Charts/GenericChart.cpp:157-179 | when new plot k first matches current plot k for every k, each new plot keeps the widget of its current plot, and no widget is created or deleted |
| ChartProperties.ReuseWhenUnchanged | src/Charts/GenericChart.cpp:157-206 | when no two current plots match each other, finalising the same plots again reuses every widget in place, and creates and deletes none |
| ChartProperties.DupGrouping | src/Charts/GenericChart.cpp:105-121 | with `stack` and no axes, each copy of a curve gives the same plot |
| ChartProperties.DupRoundOne | src/Charts/GenericChart.cpp:161-166 | with no current plots, two new plots get new widgets 0 and 1 |
| ChartProperties.DupRoundTwo | src/Charts/GenericChart.cpp:161-179 | two identical new plots both take the first current plot's widget, and the second current plot's widget is deleted |
| ChartProperties.DupRoundThree | src/Charts/GenericChart.cpp:161-179 | one new plot reuses widget 0, while the unmatched current plot that also holds widget 0 has it deleted |
| ChartProperties.DupDeletedTwice | src/Charts/GenericChart.cpp:157-179 | with no new plots and two current plots both holding widget 0, widget 0 is deleted twice and no plot remains |
| ChartProperties.StackDuplicateReleasesLiveWidget | src/Charts/GenericChart.cpp:161-179 | with `stack` and the same curve added twice, two plots share a widget, and a later round deletes a widget still in use |

## Left out

- Everything delegated to `GenericPlot` is left out: `initialiseChart`, `addCurve`, `configureAxis` and `finaliseChart` on each plot widget. That code is foreign rendering code, so the model keeps only the state change of activating each plot.
- Qt layout and widget effects are left out: the layout, `addWidget`, stretch factors and `setUpdatesEnabled`. Deleting a widget is modelled as adding its identity to the multiset `released`. Deleting the same pointer twice is undefined behaviour in C++; the model only records that it happened twice.
- Colours, opacity, line, symbol, size and OpenGL flags are passed through without logic, so the series and axis records omit them.
- The list of chart series held by `GenericAxisInfo` is unused by the bookkeeping.
- The About dialog is static widget wiring and translated text.
- The `parent` and `context` constructor arguments are Qt plumbing.
- Axis bounds and series values are `real`, not IEEE doubles. The code only compares and copies them, so NaN and infinities are not modelled.
- The 10-argument `GenericAxisInfo` constructor leaves orientation, the fixed flag and the y range unset. The value type `AxisInfo` therefore omits them, and `AxisRange` is built only by the orientation constructor.
- `Qt::Orientations` flags are modelled as two booleans. Only the test against `Qt::Horizontal` matters.
- The `locate` accessor is not modelled. It returns `align`, which the orientation constructor never sets.
