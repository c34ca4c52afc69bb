/**
 * The session logic of the time-series tooltip component
 * (ui/components/src/TimeSeriesTooltip/TimeSeriesTooltip.tsx): the pinned position
 * and the show-all flag it keeps between renders, the guards that decide whether a
 * tooltip is drawn at all, the choice between a plugin tooltip and the default one,
 * and when the "show all" toggle is offered.
 */
module TimeSeriesTooltip {
  import opened Wrappers
  import opened Graph
  import opened NearbySeries
  import NearbySeriesProofs

  /** A tooltip plugin takes over when every nearby entry has the series type it names. */
  datatype TooltipPlugin = TooltipPlugin(seriesTypeTrigger: string)

  /** What one render produces. `RenderError` is the resolver's TypeError escaping the render. */
  datatype TooltipView =
    | NoTooltip
    | PluginTooltip(series: seq<NearbySeriesInfo>)
    | DefaultTooltip(series: seq<NearbySeriesInfo>, isTooltipPinned: bool, showAllSeriesToggle: bool)
    | RenderError

  /** The series type tag as the string the chart options carry. */
  function SeriesTypeName(t: SeriesType): string {
    match t
    case Line => "line"
    case Scatter => "scatter"
    case Bar => "bar"
  }

  /** Every entry's series type equals the trigger; an undefined type equals no string. */
  predicate IsPluginActive(series: seq<NearbySeriesInfo>, plugin: TooltipPlugin) {
    forall k :: 0 <= k < |series| ==>
      series[k].seriesType.Some? && SeriesTypeName(series[k].seriesType.value) == plugin.seriesTypeTrigger
  }

  /** Offer "show all" on a pinned tooltip that shows fewer than all of several series. */
  predicate ShowAllSeriesToggle(isTooltipPinned: bool, showAllSeries: bool, totalSeries: nat, nearbyCount: nat) {
    isTooltipPinned && !showAllSeries && totalSeries > 1 && nearbyCount != totalSeries
  }

  /** The early exits: a pointer with a target, over a canvas unless a position is pinned. */
  predicate PassesGuards(mousePos: Option<CursorCoordinates>, pinnedPos: Option<CursorCoordinates>) {
    && mousePos.Some?
    && mousePos.value.target.Some?
    && (pinnedPos.Some? || mousePos.value.target.value.tagName == "CANVAS")
  }

  /** The view one render produces from the state before it and the render's inputs. */
  function ViewOf(showAllSeries: bool, pinnedPos: Option<CursorCoordinates>, mousePos: Option<CursorCoordinates>,
                  chartData: EChartsDataFormat, isTooltipPinned: bool, plugin: Option<TooltipPlugin>,
                  chart: Option<ChartInstance>, format: real -> string): (v: TooltipView)
    ensures !PassesGuards(mousePos, pinnedPos) ==> v == NoTooltip
    ensures v.PluginTooltip? || v.DefaultTooltip? ==> |v.series| > 0
    ensures v.PluginTooltip? ==> plugin.Some? && IsPluginActive(v.series, plugin.value)
    ensures v.DefaultTooltip? ==> v.isTooltipPinned == isTooltipPinned && (plugin.Some? ==> !IsPluginActive(v.series, plugin.value))
  {
    if !PassesGuards(mousePos, pinnedPos) then NoTooltip
    else
      match NearbySeriesData(mousePos, pinnedPos, chartData, chart, format, showAllSeries)
      case TypeErrorThrown => RenderError
      case Resolved(series, _) =>
        if |series| == 0 then NoTooltip
        else if plugin.Some? && IsPluginActive(series, plugin.value) then PluginTooltip(series)
        else DefaultTooltip(series, isTooltipPinned,
                            ShowAllSeriesToggle(isTooltipPinned, showAllSeries, |chartData.timeSeries|, |series|))
  }

  /** The renderer commands one render dispatches (none when a guard exits early). */
  function CommandsOf(showAllSeries: bool, pinnedPos: Option<CursorCoordinates>, mousePos: Option<CursorCoordinates>,
                      chartData: EChartsDataFormat, chart: Option<ChartInstance>, format: real -> string): (r: seq<ChartAction>)
    ensures !PassesGuards(mousePos, pinnedPos) ==> r == []
  {
    if !PassesGuards(mousePos, pinnedPos) then []
    else
      match NearbySeriesData(mousePos, pinnedPos, chartData, chart, format, showAllSeries)
      case TypeErrorThrown => []
      case Resolved(_, actions) => actions
  }

  /** The component's state: the `useState` pair `showAllSeries` and `pinnedPos`. */
  class TooltipState {
    var showAllSeries: bool
    var pinnedPos: Option<CursorCoordinates>

    /** A fresh component: nothing pinned, show-all off. */
    constructor ()
      ensures !showAllSeries && pinnedPos.None?
    {
      showAllSeries := false;
      pinnedPos := None;
    }

    /**
     * One render. The default tooltip pins the current pointer when pinning is
     * requested and nothing is pinned yet; nothing else changes the state.
     */
    method Render(mousePos: Option<CursorCoordinates>, chartData: EChartsDataFormat, isTooltipPinned: bool,
                  plugin: Option<TooltipPlugin>, chart: Option<ChartInstance>, format: real -> string)
      returns (view: TooltipView, commands: seq<ChartAction>)
      modifies this
      ensures view == ViewOf(old(showAllSeries), old(pinnedPos), mousePos, chartData, isTooltipPinned, plugin, chart, format)
      ensures commands == CommandsOf(old(showAllSeries), old(pinnedPos), mousePos, chartData, chart, format)
      ensures showAllSeries == old(showAllSeries)
      ensures pinnedPos == if view.DefaultTooltip? && isTooltipPinned && old(pinnedPos).None? then mousePos else old(pinnedPos)
    {
      if mousePos.None? || mousePos.value.target.None? {
        return NoTooltip, [];
      }
      if pinnedPos.None? && mousePos.value.target.value.tagName != "CANVAS" {
        return NoTooltip, [];
      }
      var nearbySeries := GetNearbySeriesData(mousePos, pinnedPos, chartData, chart, format, showAllSeries);
      if nearbySeries.TypeErrorThrown? {
        return RenderError, [];
      }
      commands := nearbySeries.actions;
      if |nearbySeries.series| == 0 {
        return NoTooltip, commands;
      }
      if plugin.Some? {
        var isActive := IsPluginActive(nearbySeries.series, plugin.value);
        if isActive {
          return PluginTooltip(nearbySeries.series), commands;
        }
      }
      if isTooltipPinned && pinnedPos.None? {
        pinnedPos := mousePos;
      }
      var showAllSeriesToggle := ShowAllSeriesToggle(isTooltipPinned, showAllSeries, |chartData.timeSeries|, |nearbySeries.series|);
      view := DefaultTooltip(nearbySeries.series, isTooltipPinned, showAllSeriesToggle);
    }

    /** The unpin button: forgets the pinned position and keeps the show-all flag. */
    method Unpin()
      modifies this
      ensures pinnedPos.None?
      ensures showAllSeries == old(showAllSeries)
    {
      pinnedPos := None;
    }

    /** The "show all" switch. */
    method SetShowAllSeries(checked: bool)
      modifies this
      ensures showAllSeries == checked
      ensures pinnedPos == old(pinnedPos)
    {
      showAllSeries := checked;
    }
  }

  // ---------------------------------------------------------------------------
  // Properties

  /**
   * On the default tooltip the toggle is offered exactly when it is pinned, show-all
   * is off, there are several series, and some series is not shown.
   */
  lemma ToggleOfferedIffSomeSeriesHidden(showAllSeries: bool, pinnedPos: Option<CursorCoordinates>,
                                         mousePos: Option<CursorCoordinates>, chartData: EChartsDataFormat,
                                         isTooltipPinned: bool, plugin: Option<TooltipPlugin>,
                                         chart: Option<ChartInstance>, format: real -> string)
    requires ViewOf(showAllSeries, pinnedPos, mousePos, chartData, isTooltipPinned, plugin, chart, format).DefaultTooltip?
    ensures var v := ViewOf(showAllSeries, pinnedPos, mousePos, chartData, isTooltipPinned, plugin, chart, format);
            v.showAllSeriesToggle
            <==> isTooltipPinned && !showAllSeries && |chartData.timeSeries| > 1 && |v.series| < |chartData.timeSeries|
  {
    NearbySeriesProofs.NearbySeriesDataSound(mousePos.value, mousePos.value, pinnedPos, chartData, chart, format, showAllSeries);
  }

  /**
   * A plugin tooltip is only ever drawn for a "scatter" trigger, and then every entry
   * is an annotation entry: line entries carry no series type.
   */
  lemma PluginTooltipOnlyForAnnotations(showAllSeries: bool, pinnedPos: Option<CursorCoordinates>,
                                        mousePos: Option<CursorCoordinates>, chartData: EChartsDataFormat,
                                        isTooltipPinned: bool, plugin: Option<TooltipPlugin>,
                                        chart: Option<ChartInstance>, format: real -> string)
    requires ViewOf(showAllSeries, pinnedPos, mousePos, chartData, isTooltipPinned, plugin, chart, format).PluginTooltip?
    ensures var v := ViewOf(showAllSeries, pinnedPos, mousePos, chartData, isTooltipPinned, plugin, chart, format);
            && plugin.value.seriesTypeTrigger == "scatter"
            && forall k :: 0 <= k < |v.series| ==> v.series[k].seriesType == Some(Scatter)
  {
    NearbySeriesProofs.NearbySeriesDataSound(mousePos.value, mousePos.value, pinnedPos, chartData, chart, format, showAllSeries);
    var v := ViewOf(showAllSeries, pinnedPos, mousePos, chartData, isTooltipPinned, plugin, chart, format);
    assert v.series[0].seriesType.Some?;
  }

  /** A plugin whose trigger is "line" never takes over. */
  lemma LinePluginNeverActive(showAllSeries: bool, pinnedPos: Option<CursorCoordinates>,
                              mousePos: Option<CursorCoordinates>, chartData: EChartsDataFormat,
                              isTooltipPinned: bool, chart: Option<ChartInstance>, format: real -> string)
    ensures !ViewOf(showAllSeries, pinnedPos, mousePos, chartData, isTooltipPinned,
                    Some(TooltipPlugin("line")), chart, format).PluginTooltip?
  {
    if ViewOf(showAllSeries, pinnedPos, mousePos, chartData, isTooltipPinned, Some(TooltipPlugin("line")), chart, format).PluginTooltip? {
      PluginTooltipOnlyForAnnotations(showAllSeries, pinnedPos, mousePos, chartData, isTooltipPinned,
                                      Some(TooltipPlugin("line")), chart, format);
    }
  }

  /** While a position is pinned, where the pointer is makes no difference to the view or the commands. */
  lemma PinnedViewIgnoresPointer(showAllSeries: bool, pinned: CursorCoordinates, mouse: CursorCoordinates,
                                 otherMouse: CursorCoordinates, chartData: EChartsDataFormat, isTooltipPinned: bool,
                                 plugin: Option<TooltipPlugin>, chart: Option<ChartInstance>, format: real -> string)
    requires mouse.target.Some? && otherMouse.target.Some?
    ensures ViewOf(showAllSeries, Some(pinned), Some(mouse), chartData, isTooltipPinned, plugin, chart, format)
            == ViewOf(showAllSeries, Some(pinned), Some(otherMouse), chartData, isTooltipPinned, plugin, chart, format)
    ensures CommandsOf(showAllSeries, Some(pinned), Some(mouse), chartData, chart, format)
            == CommandsOf(showAllSeries, Some(pinned), Some(otherMouse), chartData, chart, format)
  {
    NearbySeriesProofs.NearbySeriesDataSound(mouse, otherMouse, Some(pinned), chartData, chart, format, showAllSeries);
  }

  /** A session: pinning once keeps that position through later renders until unpinned. */
  method PinnedSession(mouse: CursorCoordinates, later: CursorCoordinates, chartData: EChartsDataFormat,
                       chart: Option<ChartInstance>, format: real -> string)
    returns (first: TooltipView, second: TooltipView, afterUnpin: TooltipView)
    requires mouse.target.Some? && later.target.Some?
    ensures first == ViewOf(false, None, Some(mouse), chartData, true, None, chart, format)
    ensures first.DefaultTooltip? ==> second == ViewOf(false, Some(mouse), Some(mouse), chartData, true, None, chart, format)
    ensures afterUnpin == ViewOf(false, None, Some(later), chartData, true, None, chart, format)
  {
    var state := new TooltipState();
    var commands;
    first, commands := state.Render(Some(mouse), chartData, true, None, chart, format);
    second, commands := state.Render(Some(later), chartData, true, None, chart, format);
    if first.DefaultTooltip? {
      PinnedViewIgnoresPointer(false, mouse, later, mouse, chartData, true, None, chart, format);
    }
    state.Unpin();
    afterUnpin, commands := state.Render(Some(later), chartData, true, None, chart, format);
  }
}
