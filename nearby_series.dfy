/**
 * The time-series tooltip's nearby-series resolver
 * (ui/components/src/TimeSeriesTooltip/nearby-series.ts).
 *
 * Renderer commands are returned as a list of `ChartAction`s instead of being
 * dispatched to the chart; the chart's coordinate conversions are oracles.
 */
module NearbySeries {
  import opened Wrappers
  import opened Graph

  /** Multiplier of the y interval when few series are drawn (higher shows more series). */
  const IncreaseNearbySeriesMultiplier: real := 5.5
  /** Multiplier of the y interval divided by the series count when many series are drawn. */
  const DynamicNearbySeriesMultiplier: real := 30.0
  /** Above this series count the buffer and the emphasis band shrink. */
  const ShowFewerSeriesLimit: nat := 5
  /** x values above this are taken to be milliseconds already, others seconds. */
  const MillisecondsThreshold: real := 99999999999.0
  const LineMarkerColor: string := "#FFFF00"
  const EventMarkerColor: string := "#00FFFF"
  /** The resolver labels every entry with this fixed name. */
  const PlaceholderSeriesName: string := "test"

  /** One tooltip row. Line entries leave `seriesType` and `events` undefined. */
  datatype NearbySeriesInfo = NearbySeriesInfo(
    seriesIdx: nat,
    datumIdx: real,
    seriesName: string,
    date: real,
    markerColor: string,
    x: real,
    y: real,
    formattedY: string,
    isClosestToCursor: bool,
    seriesType: Option<SeriesType>,
    events: Option<seq<Event>>)

  /** A point in chart grid coordinates; a coordinate may be undefined. */
  datatype GridPoint = GridPoint(x: Option<real>, y: Option<real>)

  /** The commands the resolver sends to the chart renderer. */
  datatype ChartAction =
    | DownplaySeries(seriesIndex: nat)
    | Downplay(seriesIndexes: seq<nat>)
    | Highlight(seriesIndexes: seq<nat>, notBlur: bool)

  /**
   * The outcome of a resolution: the tooltip rows and the renderer commands, or the
   * TypeError the scan throws when a 'scatter' series has no first annotation datum.
   */
  datatype Resolution = Resolved(series: seq<NearbySeriesInfo>, actions: seq<ChartAction>) | TypeErrorThrown

  /** What one scan needs besides the series themselves. */
  datatype ScanContext = ScanContext(
    xAxis: seq<real>,
    xAxisAlt: Option<seq<real>>,
    totalSeries: nat,
    cursorX: real,
    cursorY: real,
    yBuffer: real,
    focusedEventsX: Option<real>,
    focusedEventsY: Option<real>,
    format: real -> string)

  /** JavaScript's `Math.max` on two numbers. */
  function Max(a: real, b: real): real {
    if a >= b then a else b
  }

  function Abs(a: real): real {
    if a >= 0.0 then a else -a
  }

  /** The series is an annotation series: its type tag is `'scatter'`. */
  predicate IsScatterSeries(series: EChartsTimeSeries) {
    series.seriesType == Some(Scatter)
  }

  /** The band is scaled by `baseValue` itself, not by the buffer or the axis. */
  predicate IsWithinPercentageRange(valueToCheck: real, baseValue: real, percentage: real) {
    var range := (percentage / 100.0) * baseValue;
    var lowerBound := baseValue - range;
    var upperBound := baseValue + range;
    valueToCheck >= lowerBound && valueToCheck <= upperBound
  }

  /** The y window around the cursor inside which a series counts as nearby. */
  function GetYBuffer(yInterval: real, totalSeries: nat, showAllSeries: bool): (r: real)
    ensures yInterval >= 0.0 ==> r >= yInterval * 0.3
  {
    if showAllSeries then
      yInterval * 10.0
    else
      var yBufferMin := yInterval * 0.3;
      if totalSeries > ShowFewerSeriesLimit then
        Max(yBufferMin, (yInterval * DynamicNearbySeriesMultiplier) / totalSeries as real)
      else
        Max(yBufferMin, yInterval * IncreaseNearbySeriesMultiplier)
  }

  /** The emphasis band, in percent of the matched value. */
  function PercentRangeToCheck(totalSeries: nat): (r: real)
    requires totalSeries > 0
    ensures r >= 2.0 && r >= 100.0 / totalSeries as real
  {
    var minPercentRange := if totalSeries > ShowFewerSeriesLimit then 2.0 else 5.0;
    Max(minPercentRange, 100.0 / totalSeries as real)
  }

  /** Seconds-scale timestamps are scaled to milliseconds. */
  function ToMilliseconds(x: real): real {
    if x > MillisecondsThreshold then x else x * 1000.0
  }

  /** `i` is a valid array index below `n` (JavaScript indexes arrays by numbers). */
  predicate IsIndexOf(i: real, n: nat) {
    0.0 <= i && i.Floor as real == i && i.Floor < n
  }

  /** `xAxis[i] ?? 0` for a whole-number index. */
  function AxisAt(xs: seq<real>, i: nat): real {
    if i < |xs| then xs[i] else 0.0
  }

  /** `xAxisAlt[i] ?? 0` for an arbitrary number `i`. */
  function AltAxisAt(xs: seq<real>, i: real): real {
    if IsIndexOf(i, |xs|) then xs[i.Floor] else 0.0
  }

  /** The line-series test: a defined value at the cursor's exact column, within `yBuffer` of the cursor. */
  predicate LineMatchAt(values: seq<EChartsValue>, datumIdx: nat, cursorX: real, cursorY: real, yBuffer: real) {
    && datumIdx < |values|
    && values[datumIdx] != Null
    && cursorX == datumIdx as real
    && values[datumIdx] != Gap
    && cursorY <= values[datumIdx].n + yBuffer
    && cursorY >= values[datumIdx].n - yBuffer
  }

  function LineEntry(ctx: ScanContext, seriesIdx: nat, datumIdx: nat, yValue: real): NearbySeriesInfo
    requires ctx.totalSeries > 0
  {
    var xValue := AxisAt(ctx.xAxis, datumIdx);
    var isClosestToCursor := IsWithinPercentageRange(ctx.cursorY, yValue, PercentRangeToCheck(ctx.totalSeries));
    NearbySeriesInfo(seriesIdx, datumIdx as real, PlaceholderSeriesName, ToMilliseconds(xValue), LineMarkerColor,
                     xValue, yValue, ctx.format(yValue), isClosestToCursor, None, None)
  }

  /** The line entries of one series found among its first `k` values. */
  function LineEntriesUpTo(ctx: ScanContext, seriesIdx: nat, values: seq<EChartsValue>, k: nat): seq<NearbySeriesInfo>
    requires k <= |values| && ctx.totalSeries > 0
  {
    if k == 0 then []
    else
      LineEntriesUpTo(ctx, seriesIdx, values, k - 1)
      + (if LineMatchAt(values, k - 1, ctx.cursorX, ctx.cursorY, ctx.yBuffer)
         then [LineEntry(ctx, seriesIdx, k - 1, values[k - 1].n)] else [])
  }

  /**
   * The annotation entry of one series, if any; `None` when reading the first
   * datum's value tuple throws.
   */
  function EventEntries(ctx: ScanContext, seriesIdx: nat, series: EChartsTimeSeries): Option<seq<NearbySeriesInfo>> {
    if IsScatterSeries(series) && ctx.focusedEventsX.Some? && ctx.focusedEventsY.Some? then
      match series.data
      case LineValues(_) => None
      case AnnotationData(datums) =>
        if |datums| == 0 then None
        else
          var currentEventValue := datums[0].value;
          var xIndex := currentEventValue.xIndex;
          if ctx.focusedEventsX.value == xIndex && ctx.xAxisAlt.Some? then
            var xValue := AltAxisAt(ctx.xAxisAlt.value, xIndex);
            Some([NearbySeriesInfo(seriesIdx, xIndex, PlaceholderSeriesName, xValue, EventMarkerColor, xValue, 0.0,
                                   ctx.format(0.0), false, Some(Scatter), currentEventValue.events)])
          else Some([])
    else Some([])
  }

  /** Everything one series contributes: its annotation entry, then its line entries. */
  function SeriesEntries(ctx: ScanContext, seriesIdx: nat, series: EChartsTimeSeries): Option<seq<NearbySeriesInfo>>
    requires ctx.totalSeries > 0
  {
    match EventEntries(ctx, seriesIdx, series)
    case None => None
    case Some(events) =>
      match series.data
      case LineValues(values) => Some(events + LineEntriesUpTo(ctx, seriesIdx, values, |values|))
      case AnnotationData(_) => Some(events)
  }

  /**
   * The entries after the scan has passed the first `n` series. Once the limit is
   * reached, later series are not examined.
   */
  function ScanEntries(ctx: ScanContext, ts: seq<EChartsTimeSeries>, n: nat): Option<seq<NearbySeriesInfo>>
    requires n <= |ts| == ctx.totalSeries
  {
    if n == 0 then Some([])
    else
      var prev := ScanEntries(ctx, ts, n - 1);
      if prev.None? || |prev.value| >= OptimizedModeSeriesLimit then prev
      else
        match SeriesEntries(ctx, n - 1, ts[n - 1])
        case None => None
        case Some(found) => Some(prev.value + found)
  }

  /** Line entries are the ones without a series type. */
  predicate IsLineEntry(e: NearbySeriesInfo) {
    e.seriesType.None?
  }

  /** The indexes of the series with a line entry, in entry order (`nearbySeriesIndexes`). */
  function LineSeriesIndexes(es: seq<NearbySeriesInfo>): seq<nat> {
    if es == [] then []
    else
      var last := es[|es| - 1];
      LineSeriesIndexes(es[..|es| - 1]) + (if IsLineEntry(last) then [last.seriesIdx] else [])
  }

  /** The indexes of the series with an emphasized line entry (`emphasizedSeriesIndexes`). */
  function ClosestIndexes(es: seq<NearbySeriesInfo>): seq<nat> {
    if es == [] then []
    else
      var last := es[|es| - 1];
      ClosestIndexes(es[..|es| - 1]) + (if IsLineEntry(last) && last.isClosestToCursor then [last.seriesIdx] else [])
  }

  /** The indexes of the series with a non-emphasized line entry (`nonEmphasizedSeriesIndexes`). */
  function NotClosestIndexes(es: seq<NearbySeriesInfo>): seq<nat> {
    if es == [] then []
    else
      var last := es[|es| - 1];
      NotClosestIndexes(es[..|es| - 1]) + (if IsLineEntry(last) && !last.isClosestToCursor then [last.seriesIdx] else [])
  }

  /** One downplay command per index, in order. */
  function DownplayEach(indexes: seq<nat>): (r: seq<ChartAction>)
    ensures |r| == |indexes|
    ensures forall k :: 0 <= k < |r| ==> r[k] == DownplaySeries(indexes[k])
  {
    if indexes == [] then []
    else DownplayEach(indexes[..|indexes| - 1]) + [DownplaySeries(indexes[|indexes| - 1])]
  }

  /** The renderer commands the scan issues for the entries it found. */
  function Actions(es: seq<NearbySeriesInfo>): seq<ChartAction> {
    var nonEmphasized := NotClosestIndexes(es);
    var emphasized := ClosestIndexes(es);
    DownplayEach(nonEmphasized)
    + [Downplay(nonEmphasized)]
    + [if |emphasized| > 0 then Highlight(emphasized, false) else Highlight(LineSeriesIndexes(es), true)]
  }

  /** The scan context of a resolution whose cursor coordinates are both defined. */
  function ContextOf(data: EChartsDataFormat, cursorX: real, cursorY: real, yBuffer: real, format: real -> string,
                     pointInGridEvents: Option<GridPoint>): ScanContext
  {
    var focusedEventsX := if pointInGridEvents.Some? then pointInGridEvents.value.x else None;
    var focusedEventsY := if pointInGridEvents.Some? then pointInGridEvents.value.y else None;
    ScanContext(data.xAxis, data.xAxisAlt, |data.timeSeries|, cursorX, cursorY, yBuffer, focusedEventsX, focusedEventsY, format)
  }

  /** Appending one entry extends each index list by that entry's contribution. */
  lemma AppendEntry(es: seq<NearbySeriesInfo>, e: NearbySeriesInfo)
    ensures LineSeriesIndexes(es + [e]) == LineSeriesIndexes(es) + (if IsLineEntry(e) then [e.seriesIdx] else [])
    ensures ClosestIndexes(es + [e]) == ClosestIndexes(es) + (if IsLineEntry(e) && e.isClosestToCursor then [e.seriesIdx] else [])
    ensures NotClosestIndexes(es + [e]) == NotClosestIndexes(es) + (if IsLineEntry(e) && !e.isClosestToCursor then [e.seriesIdx] else [])
  {
    assert (es + [e])[..|es|] == es;
  }

  /**
   * One matched datum of the datum loop: classifies it, pushes its index onto the
   * emphasized or the non-emphasized list (downplaying the latter at once), and
   * pushes the entry and its series index.
   */
  method PushLineEntry(ctx: ScanContext, seriesIdx: nat, datumIdx: nat, yValue: real, hasChart: bool,
                       entries0: seq<NearbySeriesInfo>, nearby0: seq<nat>, emphasized0: seq<nat>,
                       nonEmphasized0: seq<nat>, actions0: seq<ChartAction>)
    returns (entries: seq<NearbySeriesInfo>, nearby: seq<nat>, emphasized: seq<nat>, nonEmphasized: seq<nat>,
             actions: seq<ChartAction>)
    requires ctx.totalSeries > 0
    requires nearby0 == LineSeriesIndexes(entries0)
    requires emphasized0 == ClosestIndexes(entries0)
    requires nonEmphasized0 == NotClosestIndexes(entries0)
    requires actions0 == if hasChart then DownplayEach(nonEmphasized0) else []
    ensures entries == entries0 + [LineEntry(ctx, seriesIdx, datumIdx, yValue)]
    ensures nearby == LineSeriesIndexes(entries)
    ensures emphasized == ClosestIndexes(entries)
    ensures nonEmphasized == NotClosestIndexes(entries)
    ensures actions == if hasChart then DownplayEach(nonEmphasized) else []
  {
    emphasized, nonEmphasized, actions := emphasized0, nonEmphasized0, actions0;
    var xValue := AxisAt(ctx.xAxis, datumIdx);
    var percentRangeToCheck := PercentRangeToCheck(ctx.totalSeries);
    var isClosestToCursor := IsWithinPercentageRange(ctx.cursorY, yValue, percentRangeToCheck);
    if isClosestToCursor {
      emphasized := emphasized + [seriesIdx];
    } else {
      nonEmphasized := nonEmphasized + [seriesIdx];
      if hasChart {
        assert nonEmphasized[..|nonEmphasized| - 1] == nonEmphasized0;
        actions := actions + [DownplaySeries(seriesIdx)];
      }
    }
    var xValueMilliSeconds := if xValue > MillisecondsThreshold then xValue else xValue * 1000.0;
    var entry := NearbySeriesInfo(seriesIdx, datumIdx as real, PlaceholderSeriesName, xValueMilliSeconds,
                                  LineMarkerColor, xValue, yValue, ctx.format(yValue), isClosestToCursor, None, None);
    AppendEntry(entries0, entry);
    entries := entries0 + [entry];
    nearby := nearby0 + [seriesIdx];
  }

  /**
   * The datum loop of `checkforNearbySeries` for one line series: appends its line
   * entries and keeps the three index lists and the per-series downplays in step.
   */
  method ScanLineValues(ctx: ScanContext, seriesIdx: nat, values: seq<EChartsValue>, hasChart: bool,
                        entries0: seq<NearbySeriesInfo>, nearby0: seq<nat>, emphasized0: seq<nat>,
                        nonEmphasized0: seq<nat>, actions0: seq<ChartAction>)
    returns (entries: seq<NearbySeriesInfo>, nearby: seq<nat>, emphasized: seq<nat>, nonEmphasized: seq<nat>,
             actions: seq<ChartAction>)
    requires ctx.totalSeries > 0
    requires nearby0 == LineSeriesIndexes(entries0)
    requires emphasized0 == ClosestIndexes(entries0)
    requires nonEmphasized0 == NotClosestIndexes(entries0)
    requires actions0 == if hasChart then DownplayEach(nonEmphasized0) else []
    ensures entries == entries0 + LineEntriesUpTo(ctx, seriesIdx, values, |values|)
    ensures nearby == LineSeriesIndexes(entries)
    ensures emphasized == ClosestIndexes(entries)
    ensures nonEmphasized == NotClosestIndexes(entries)
    ensures actions == if hasChart then DownplayEach(nonEmphasized) else []
  {
    entries, nearby, emphasized, nonEmphasized, actions := entries0, nearby0, emphasized0, nonEmphasized0, actions0;
    var cursorX, cursorY, yBuffer := ctx.cursorX, ctx.cursorY, ctx.yBuffer;
    var datumIdx := 0;
    while datumIdx < |values|
      invariant 0 <= datumIdx <= |values|
      invariant entries == entries0 + LineEntriesUpTo(ctx, seriesIdx, values, datumIdx)
      invariant nearby == LineSeriesIndexes(entries)
      invariant emphasized == ClosestIndexes(entries)
      invariant nonEmphasized == NotClosestIndexes(entries)
      invariant actions == if hasChart then DownplayEach(nonEmphasized) else []
    {
      ghost var before := LineEntriesUpTo(ctx, seriesIdx, values, datumIdx);
      ghost var matched := LineMatchAt(values, datumIdx, cursorX, cursorY, yBuffer);
      var yValue := values[datumIdx];
      if yValue != Null && cursorX == datumIdx as real && yValue != Gap
         && cursorY <= yValue.n + yBuffer && cursorY >= yValue.n - yBuffer {
        assert matched;
        entries, nearby, emphasized, nonEmphasized, actions :=
          PushLineEntry(ctx, seriesIdx, datumIdx, yValue.n, hasChart, entries, nearby, emphasized, nonEmphasized, actions);
        assert entries == entries0 + (before + [LineEntry(ctx, seriesIdx, datumIdx, yValue.n)]);
      } else {
        assert !matched;
      }
      datumIdx := datumIdx + 1;
    }
  }

  /**
   * The body of the series loop of `checkforNearbySeries` for one series: its
   * annotation entry, then its datum loop. `thrown` when reading the first
   * annotation datum throws.
   */
  method ScanSeries(ctx: ScanContext, seriesIdx: nat, currentSeries: EChartsTimeSeries, hasChart: bool,
                    entries0: seq<NearbySeriesInfo>, nearby0: seq<nat>, emphasized0: seq<nat>,
                    nonEmphasized0: seq<nat>, actions0: seq<ChartAction>)
    returns (thrown: bool, entries: seq<NearbySeriesInfo>, nearby: seq<nat>, emphasized: seq<nat>,
             nonEmphasized: seq<nat>, actions: seq<ChartAction>)
    requires ctx.totalSeries > 0
    requires nearby0 == LineSeriesIndexes(entries0)
    requires emphasized0 == ClosestIndexes(entries0)
    requires nonEmphasized0 == NotClosestIndexes(entries0)
    requires actions0 == if hasChart then DownplayEach(nonEmphasized0) else []
    ensures thrown <==> SeriesEntries(ctx, seriesIdx, currentSeries).None?
    ensures !thrown ==> entries == entries0 + SeriesEntries(ctx, seriesIdx, currentSeries).value
    ensures nearby == LineSeriesIndexes(entries)
    ensures emphasized == ClosestIndexes(entries)
    ensures nonEmphasized == NotClosestIndexes(entries)
    ensures actions == if hasChart then DownplayEach(nonEmphasized) else []
  {
    thrown := false;
    entries, nearby, emphasized, nonEmphasized, actions := entries0, nearby0, emphasized0, nonEmphasized0, actions0;
    ghost var events: seq<NearbySeriesInfo> := [];
    if currentSeries.seriesType == Some(Scatter) && ctx.focusedEventsX.Some? && ctx.focusedEventsY.Some? {
      if currentSeries.data.LineValues? || |currentSeries.data.datums| == 0 {
        // reading `data[0].value[0]` throws
        thrown := true;
        return;
      }
      var currentEventValue := currentSeries.data.datums[0].value;
      var xIndex := currentEventValue.xIndex;
      if ctx.focusedEventsX.value == xIndex && ctx.xAxisAlt.Some? {
        var xValue := AltAxisAt(ctx.xAxisAlt.value, xIndex);
        var yValue := 0.0;
        var entry := NearbySeriesInfo(seriesIdx, xIndex, PlaceholderSeriesName, xValue, EventMarkerColor, xValue, yValue,
                                      ctx.format(yValue), false, Some(Scatter), currentEventValue.events);
        AppendEntry(entries, entry);
        entries := entries + [entry];
        events := [entry];
      }
    }
    assert entries == entries0 + events;
    assert EventEntries(ctx, seriesIdx, currentSeries) == Some(events);
    if currentSeries.data.LineValues? {
      entries, nearby, emphasized, nonEmphasized, actions :=
        ScanLineValues(ctx, seriesIdx, currentSeries.data.values, hasChart, entries, nearby, emphasized, nonEmphasized, actions);
    }
  }

  /**
   * `checkforNearbySeries` as a function of its inputs; `hasChart` says whether a
   * chart is there to receive commands, `format` stands for `formatValue` with the unit.
   */
  function Resolve(data: EChartsDataFormat, pointInGrid: GridPoint, yBuffer: real, hasChart: bool,
                   format: real -> string, pointInGridEvents: Option<GridPoint>): (r: Resolution)
    ensures pointInGrid.x.None? || pointInGrid.y.None? ==> r == Resolved([], [])
    ensures !hasChart && r.Resolved? ==> r.actions == []
  {
    if pointInGrid.x.None? || pointInGrid.y.None? then Resolved([], [])
    else
      var ctx := ContextOf(data, pointInGrid.x.value, pointInGrid.y.value, yBuffer, format, pointInGridEvents);
      match ScanEntries(ctx, data.timeSeries, |data.timeSeries|)
      case None => TypeErrorThrown
      case Some(entries) => Resolved(entries, if hasChart then Actions(entries) else [])
  }

  lemma {:induction false} ScanFrozenAtLimit(ctx: ScanContext, ts: seq<EChartsTimeSeries>, i: nat, j: nat)
    requires i <= j <= |ts| == ctx.totalSeries
    requires ScanEntries(ctx, ts, i).Some? && |ScanEntries(ctx, ts, i).value| >= OptimizedModeSeriesLimit
    ensures ScanEntries(ctx, ts, j) == ScanEntries(ctx, ts, i)
  {
    if j > i {
      ScanFrozenAtLimit(ctx, ts, i, j - 1);
    }
  }

  lemma {:induction false} ScanThrownSticks(ctx: ScanContext, ts: seq<EChartsTimeSeries>, i: nat, j: nat)
    requires i <= j <= |ts| == ctx.totalSeries
    requires ScanEntries(ctx, ts, i).None?
    ensures ScanEntries(ctx, ts, j).None?
  {
    if j > i {
      ScanThrownSticks(ctx, ts, i, j - 1);
    }
  }

  /**
   * `checkforNearbySeries`: scans the series in order, stopping at the limit, and
   * pushes onto the entry list and the three index lists as it goes.
   */
  method CheckForNearbySeries(data: EChartsDataFormat, pointInGrid: GridPoint, yBuffer: real, hasChart: bool,
                              format: real -> string, pointInGridEvents: Option<GridPoint>) returns (r: Resolution)
    ensures r == Resolve(data, pointInGrid, yBuffer, hasChart, format, pointInGridEvents)
  {
    var currentNearbySeriesData: seq<NearbySeriesInfo> := [];
    if pointInGrid.x.None? || pointInGrid.y.None? {
      return Resolved(currentNearbySeriesData, []);
    }
    var nearbySeriesIndexes: seq<nat> := [];
    var emphasizedSeriesIndexes: seq<nat> := [];
    var nonEmphasizedSeriesIndexes: seq<nat> := [];
    var actions: seq<ChartAction> := [];
    var totalSeries := |data.timeSeries|;
    // the cursor, the focused events cursor and the axes the scan reads
    var ctx := ContextOf(data, pointInGrid.x.value, pointInGrid.y.value, yBuffer, format, pointInGridEvents);

    var seriesIdx := 0;
    while seriesIdx < totalSeries
      invariant 0 <= seriesIdx <= totalSeries
      invariant ScanEntries(ctx, data.timeSeries, seriesIdx) == Some(currentNearbySeriesData)
      invariant nearbySeriesIndexes == LineSeriesIndexes(currentNearbySeriesData)
      invariant emphasizedSeriesIndexes == ClosestIndexes(currentNearbySeriesData)
      invariant nonEmphasizedSeriesIndexes == NotClosestIndexes(currentNearbySeriesData)
      invariant actions == if hasChart then DownplayEach(nonEmphasizedSeriesIndexes) else []
    {
      var currentSeries := data.timeSeries[seriesIdx];
      if |currentNearbySeriesData| >= OptimizedModeSeriesLimit {
        ScanFrozenAtLimit(ctx, data.timeSeries, seriesIdx, totalSeries);
        break;
      }
      ghost var before := currentNearbySeriesData;
      var thrown;
      thrown, currentNearbySeriesData, nearbySeriesIndexes, emphasizedSeriesIndexes, nonEmphasizedSeriesIndexes, actions :=
        ScanSeries(ctx, seriesIdx, currentSeries, hasChart, currentNearbySeriesData,
                   nearbySeriesIndexes, emphasizedSeriesIndexes, nonEmphasizedSeriesIndexes, actions);
      if thrown {
        assert ScanEntries(ctx, data.timeSeries, seriesIdx + 1).None?;
        ScanThrownSticks(ctx, data.timeSeries, seriesIdx + 1, totalSeries);
        return TypeErrorThrown;
      }
      assert ScanEntries(ctx, data.timeSeries, seriesIdx + 1) == Some(before + SeriesEntries(ctx, seriesIdx, currentSeries).value);
      seriesIdx := seriesIdx + 1;
    }

    if hasChart {
      actions := actions + [Downplay(nonEmphasizedSeriesIndexes)];
      if |emphasizedSeriesIndexes| > 0 {
        actions := actions + [Highlight(emphasizedSeriesIndexes, false)];
      } else {
        actions := actions + [Highlight(nearbySeriesIndexes, true)];
      }
    }
    return Resolved(currentNearbySeriesData, actions);
  }

  /** The element under the pointer; `inChart` says its grandparent is the chart's root element. */
  datatype Target = Target(tagName: string, inChart: bool)

  /** The pointer position over the plot canvas, each coordinate possibly undefined, and its target. */
  datatype CursorCoordinates = CursorCoordinates(plotCanvasX: Option<real>, plotCanvasY: Option<real>, target: Option<Target>)

  /**
   * What the resolver asks of the chart instance: whether its model exists, the y
   * axis tick interval, the grid hit test and the two pixel-to-grid conversions.
   */
  datatype ChartInstance = ChartInstance(
    hasModel: bool,
    yInterval: real,
    containPixel: (real, real) -> bool,
    convertFromPixel: (real, real) -> GridPoint,
    convertFromPixelEvents: (real, real) -> GridPoint)

  /** Downplay commands for series `0 .. n-1`, in order. */
  function ClearHighlights(n: nat): (r: seq<ChartAction>)
    ensures |r| == n
    ensures forall k :: 0 <= k < n ==> r[k] == DownplaySeries(k)
  {
    if n == 0 then [] else ClearHighlights(n - 1) + [DownplaySeries(n - 1)]
  }

  /** `getNearbySeriesData` as a function of its inputs and the chart oracles. */
  function NearbySeriesData(mousePos: Option<CursorCoordinates>, pinnedPos: Option<CursorCoordinates>,
                            chartData: EChartsDataFormat, chart: Option<ChartInstance>, format: real -> string,
                            showAllSeries: bool): (r: Resolution)
    ensures chart.None? || mousePos.None? ==> r == Resolved([], [])
  {
    if chart.None? || mousePos.None? then Resolved([], [])
    else
      var c := chart.value;
      var cursorTargetMatchesChart := pinnedPos.Some? || (mousePos.value.target.Some? && mousePos.value.target.value.inChart);
      var pos := if pinnedPos.Some? then pinnedPos.value else mousePos.value;
      if !cursorTargetMatchesChart || !c.hasModel then Resolved([], [])
      else
        var totalSeries := |chartData.timeSeries|;
        var yBuffer := GetYBuffer(c.yInterval, totalSeries, showAllSeries);
        var px := pos.plotCanvasX.GetOr(0.0);
        var py := pos.plotCanvasY.GetOr(0.0);
        var pointInGrid := c.convertFromPixel(px, py);
        if c.containPixel(px, py) && pointInGrid.x.Some? && pointInGrid.y.Some? then
          Resolve(chartData, pointInGrid, yBuffer, true, format, Some(c.convertFromPixelEvents(px, py)))
        else
          Resolved([], ClearHighlights(totalSeries))
  }

  /**
   * `getNearbySeriesData`: a pinned position overrides the pointer; outside the grid
   * every series is downplayed one by one and nothing is returned.
   */
  method GetNearbySeriesData(mousePos: Option<CursorCoordinates>, pinnedPos: Option<CursorCoordinates>,
                             chartData: EChartsDataFormat, chart: Option<ChartInstance>, format: real -> string,
                             showAllSeries: bool) returns (r: Resolution)
    ensures r == NearbySeriesData(mousePos, pinnedPos, chartData, chart, format, showAllSeries)
  {
    if chart.None? || mousePos.None? {
      return Resolved([], []);
    }
    var c := chart.value;
    var pos := mousePos.value;
    var cursorTargetMatchesChart := false;
    if pos.target.Some? && pos.target.value.inChart {
      cursorTargetMatchesChart := true;
    }
    if pinnedPos.Some? {
      pos := pinnedPos.value;
      cursorTargetMatchesChart := true;
    }
    if !cursorTargetMatchesChart {
      return Resolved([], []);
    }
    if !c.hasModel {
      return Resolved([], []);
    }
    var totalSeries := |chartData.timeSeries|;
    var yBuffer := GetYBuffer(c.yInterval, totalSeries, showAllSeries);
    var px := pos.plotCanvasX.GetOr(0.0);
    var py := pos.plotCanvasY.GetOr(0.0);
    if c.containPixel(px, py) {
      var pointInGrid := c.convertFromPixel(px, py);
      var pointInGridEvents := c.convertFromPixelEvents(px, py);
      if pointInGrid.x.Some? && pointInGrid.y.Some? {
        r := CheckForNearbySeries(chartData, pointInGrid, yBuffer, true, format, Some(pointInGridEvents));
        return;
      }
    }
    var actions: seq<ChartAction> := [];
    var i := 0;
    while i < totalSeries
      invariant 0 <= i <= totalSeries
      invariant actions == ClearHighlights(i)
    {
      actions := actions + [DownplaySeries(i)];
      i := i + 1;
    }
    return Resolved([], actions);
  }
}
