/**
 * The chart data shapes the tooltip consumes (ui/components/src/model/graph.ts).
 * ECharts option fields that the tooltip never reads are not part of this model.
 */
module Graph {
  import opened Wrappers

  /** Once this many nearby entries are collected, the tooltip stops scanning series. */
  const OptimizedModeSeriesLimit: nat := 1000

  /** One cell of a line series: a number, `null` (no data) or the gap marker `'-'`. */
  datatype EChartsValue = Num(n: real) | Null | Gap

  /** The optional `type` tag of a series. */
  datatype SeriesType = Line | Scatter | Bar

  /** An event record attached to an annotation point; its content is opaque to the tooltip. */
  datatype Event = Event(id: nat)

  /**
   * The value tuple of an annotation point: slot 0 is an index into the secondary
   * x axis, slot 1 the level the marker is drawn at, slot 2 (possibly absent) the events.
   */
  datatype ValueTuple = ValueTuple(xIndex: real, level: real, events: Option<seq<Event>>)

  datatype AnnotationSeriesDatum = AnnotationSeriesDatum(value: ValueTuple, categoryColor: Option<string>)

  /** A series' data: either line values aligned with `xAxis`, or annotation datums. */
  datatype SeriesData =
    | LineValues(values: seq<EChartsValue>)
    | AnnotationData(datums: seq<AnnotationSeriesDatum>)

  datatype EChartsTimeSeries = EChartsTimeSeries(data: SeriesData, seriesType: Option<SeriesType>, color: Option<string>)

  /** A dataset: the series, the primary x axis and the optional secondary (annotation) x axis. */
  datatype EChartsDataFormat = EChartsDataFormat(timeSeries: seq<EChartsTimeSeries>, xAxis: seq<real>, xAxisAlt: Option<seq<real>>)
}
