/**
 * Properties of the nearby-series resolver: the buffer and emphasis rules, what
 * every entry promises, that every match within the limit is found, the scan
 * limit, and what the renderer commands target.
 */
module NearbySeriesProofs {
  import opened Wrappers
  import opened Graph
  import opened NearbySeries

  // ---------------------------------------------------------------------------
  // Buffer calculator and percentage-range classifier

  /** With a non-negative interval and at most five series the floor never wins: the buffer is 5.5 intervals. */
  lemma YBufferFewSeries(yInterval: real, totalSeries: nat)
    requires yInterval >= 0.0 && totalSeries <= ShowFewerSeriesLimit
    ensures GetYBuffer(yInterval, totalSeries, false) == yInterval * 5.5
  {
  }

  /** With more than five series the buffer is 30 intervals shared among the series, down to a floor of 0.3 intervals from 100 series on. */
  lemma YBufferManySeries(yInterval: real, totalSeries: nat)
    requires yInterval >= 0.0 && totalSeries > ShowFewerSeriesLimit
    ensures GetYBuffer(yInterval, totalSeries, false)
            == if totalSeries <= 100 then (yInterval * 30.0) / totalSeries as real else yInterval * 0.3
  {
    var t := totalSeries as real;
    var shared := (yInterval * 30.0) / t;
    assert shared * t == yInterval * 30.0;
    if totalSeries <= 100 {
      assert yInterval * 0.3 * t <= yInterval * 30.0 by {
        assert yInterval * 0.3 * t <= yInterval * 0.3 * 100.0;
      }
      assert yInterval * 0.3 <= shared;
    } else {
      assert yInterval * 0.3 * t >= yInterval * 30.0 by {
        assert yInterval * 0.3 * t >= yInterval * 0.3 * 100.0;
      }
      assert yInterval * 0.3 >= shared;
    }
  }

  lemma DivisionAntitone(a: real, s: real, t: real)
    requires a >= 0.0 && 0.0 < s <= t
    ensures a / t <= a / s
  {
    assert (a / t) * t == a;
    assert (a / s) * s == a;
    assert (a / t) * s <= (a / t) * t;
  }

  /** The buffer never grows as the series count grows (for a non-negative interval). */
  lemma YBufferNonIncreasing(yInterval: real, fewer: nat, more: nat)
    requires yInterval >= 0.0 && fewer <= more
    ensures GetYBuffer(yInterval, more, false) <= GetYBuffer(yInterval, fewer, false)
  {
    var y30 := yInterval * 30.0;
    if more > ShowFewerSeriesLimit {
      if fewer > ShowFewerSeriesLimit {
        DivisionAntitone(y30, fewer as real, more as real);
      } else {
        DivisionAntitone(y30, 6.0, more as real);
        assert y30 / 6.0 == yInterval * 5.0;
      }
    }
  }

  /** The show-all buffer is the widest one, and no buffer is below 0.3 intervals. */
  lemma YBufferBounds(yInterval: real, totalSeries: nat)
    requires yInterval >= 0.0
    ensures yInterval * 0.3 <= GetYBuffer(yInterval, totalSeries, false) <= GetYBuffer(yInterval, totalSeries, true)
  {
    YBufferNonIncreasing(yInterval, 0, totalSeries);
  }

  /** The range test is the band of half-width `percentage * baseValue / 100` around `baseValue`, empty when that product is negative. */
  lemma PercentageRangeAsBand(valueToCheck: real, baseValue: real, percentage: real)
    ensures IsWithinPercentageRange(valueToCheck, baseValue, percentage)
            <==> percentage * baseValue >= 0.0 && Abs(valueToCheck - baseValue) <= percentage * baseValue / 100.0
  {
    assert (percentage / 100.0) * baseValue == percentage * baseValue / 100.0;
  }

  /** A negative base with a positive percentage matches nothing. */
  lemma NegativeBaseNeverWithin(valueToCheck: real, baseValue: real, percentage: real)
    requires baseValue < 0.0 && percentage > 0.0
    ensures !IsWithinPercentageRange(valueToCheck, baseValue, percentage)
  {
    assert percentage * baseValue < 0.0;
    PercentageRangeAsBand(valueToCheck, baseValue, percentage);
  }

  /** The emphasis band is 100/n percent up to 50 series and 2 percent beyond. */
  lemma PercentRangeClosedForm(totalSeries: nat)
    requires totalSeries > 0
    ensures PercentRangeToCheck(totalSeries) == if totalSeries > 50 then 2.0 else 100.0 / totalSeries as real
  {
    var t := totalSeries as real;
    assert (100.0 / t) * t == 100.0;
    if totalSeries > 50 {
      assert (100.0 / t) * t <= 2.0 * t;
    } else {
      assert 2.0 * t <= (100.0 / t) * t;
      if totalSeries <= ShowFewerSeriesLimit {
        assert 5.0 * t <= (100.0 / t) * t;
      }
    }
  }

  // ---------------------------------------------------------------------------
  // What an entry promises

  /** A line entry: the series has a defined value at the cursor's exact column, within the buffer of the cursor. */
  ghost predicate IsLineMatch(ctx: ScanContext, ts: seq<EChartsTimeSeries>, e: NearbySeriesInfo)
    requires ctx.totalSeries > 0
  {
    && e.seriesType.None?
    && e.seriesIdx < |ts|
    && ts[e.seriesIdx].data.LineValues?
    && IsIndexOf(e.datumIdx, |ts[e.seriesIdx].data.values|)
    && e.datumIdx == ctx.cursorX
    && ts[e.seriesIdx].data.values[e.datumIdx.Floor] == Num(e.y)
    && e.y - ctx.yBuffer <= ctx.cursorY <= e.y + ctx.yBuffer
    && e.x == AxisAt(ctx.xAxis, e.datumIdx.Floor)
    && e.date == (if e.x > 99999999999.0 then e.x else e.x * 1000.0)
    && e.isClosestToCursor == IsWithinPercentageRange(ctx.cursorY, e.y, PercentRangeToCheck(ctx.totalSeries))
    && e.formattedY == ctx.format(e.y)
    && e.markerColor == LineMarkerColor
    && e.seriesName == PlaceholderSeriesName
    && e.events.None?
  }

  /** An annotation entry: a scatter series whose first datum sits at the events cursor's x index. */
  ghost predicate IsEventMatch(ctx: ScanContext, ts: seq<EChartsTimeSeries>, e: NearbySeriesInfo) {
    && e.seriesType == Some(Scatter)
    && e.seriesIdx < |ts|
    && IsScatterSeries(ts[e.seriesIdx])
    && ctx.focusedEventsX.Some? && ctx.focusedEventsY.Some?
    && ts[e.seriesIdx].data.AnnotationData?
    && |ts[e.seriesIdx].data.datums| > 0
    && ctx.focusedEventsX.value == ts[e.seriesIdx].data.datums[0].value.xIndex
    && ctx.xAxisAlt.Some?
    && e.datumIdx == ctx.focusedEventsX.value
    && e.x == AltAxisAt(ctx.xAxisAlt.value, e.datumIdx)
    && e.date == e.x
    && e.y == 0.0
    && e.formattedY == ctx.format(0.0)
    && !e.isClosestToCursor
    && e.events == ts[e.seriesIdx].data.datums[0].value.events
    && e.markerColor == EventMarkerColor
    && e.seriesName == PlaceholderSeriesName
  }

  /** Series `j` has a line value the resolver must report. */
  ghost predicate HasLineMatch(ctx: ScanContext, ts: seq<EChartsTimeSeries>, j: nat) {
    && j < |ts|
    && ts[j].data.LineValues?
    && IsIndexOf(ctx.cursorX, |ts[j].data.values|)
    && LineMatchAt(ts[j].data.values, ctx.cursorX.Floor, ctx.cursorX, ctx.cursorY, ctx.yBuffer)
  }

  /** Series `j` is an annotation series the resolver must report. */
  ghost predicate HasEventMatch(ctx: ScanContext, ts: seq<EChartsTimeSeries>, j: nat) {
    && j < |ts|
    && IsScatterSeries(ts[j])
    && ctx.focusedEventsX.Some? && ctx.focusedEventsY.Some?
    && ts[j].data.AnnotationData?
    && |ts[j].data.datums| > 0
    && ctx.focusedEventsX.value == ts[j].data.datums[0].value.xIndex
    && ctx.xAxisAlt.Some?
  }

  /** Entries come in strictly increasing series order. */
  ghost predicate InSeriesOrder(es: seq<NearbySeriesInfo>) {
    forall a, b :: 0 <= a < b < |es| ==> es[a].seriesIdx < es[b].seriesIdx
  }

  // ---------------------------------------------------------------------------
  // One series

  /** The datum loop finds at most the cursor's own column. */
  lemma {:induction false} LineEntriesClosedForm(ctx: ScanContext, seriesIdx: nat, values: seq<EChartsValue>, k: nat)
    requires k <= |values| && ctx.totalSeries > 0
    ensures LineEntriesUpTo(ctx, seriesIdx, values, k)
            == if IsIndexOf(ctx.cursorX, k) && LineMatchAt(values, ctx.cursorX.Floor, ctx.cursorX, ctx.cursorY, ctx.yBuffer)
               then [LineEntry(ctx, seriesIdx, ctx.cursorX.Floor, values[ctx.cursorX.Floor].n)]
               else []
  {
    if k > 0 {
      LineEntriesClosedForm(ctx, seriesIdx, values, k - 1);
      if LineMatchAt(values, k - 1, ctx.cursorX, ctx.cursorY, ctx.yBuffer) {
        assert ctx.cursorX.Floor == k - 1;
        assert !IsIndexOf(ctx.cursorX, k - 1);
      } else if IsIndexOf(ctx.cursorX, k) && ctx.cursorX.Floor == k - 1 {
        assert !LineMatchAt(values, ctx.cursorX.Floor, ctx.cursorX, ctx.cursorY, ctx.yBuffer);
      }
    }
  }

  lemma LineEntryIsMatch(ctx: ScanContext, ts: seq<EChartsTimeSeries>, j: nat)
    requires j < |ts| == ctx.totalSeries
    requires HasLineMatch(ctx, ts, j)
    ensures var i := ctx.cursorX.Floor;
            IsLineMatch(ctx, ts, LineEntry(ctx, j, i, ts[j].data.values[i].n))
  {
  }

  /**
   * Only a series that `isScatterSeries` accepts is read as annotation data: any
   * other series contributes no annotation entry and never throws.
   */
  lemma AnnotationEntriesOnlyFromScatter(ctx: ScanContext, seriesIdx: nat, series: EChartsTimeSeries)
    ensures !IsScatterSeries(series) ==> EventEntries(ctx, seriesIdx, series) == Some([])
    ensures match EventEntries(ctx, seriesIdx, series)
            case None => IsScatterSeries(series)
            case Some(es) => |es| > 0 ==> IsScatterSeries(series) && es[0].seriesType == Some(Scatter)
  {
  }

  /** A series contributes at most one entry, and that entry is justified. */
  lemma SeriesEntriesSound(ctx: ScanContext, ts: seq<EChartsTimeSeries>, j: nat)
    requires j < |ts| == ctx.totalSeries
    requires SeriesEntries(ctx, j, ts[j]).Some?
    ensures var found := SeriesEntries(ctx, j, ts[j]).value;
            && |found| <= 1
            && forall k :: 0 <= k < |found| ==>
                 found[k].seriesIdx == j && (IsLineMatch(ctx, ts, found[k]) || IsEventMatch(ctx, ts, found[k]))
  {
    match ts[j].data
    case LineValues(values) =>
      LineEntriesClosedForm(ctx, j, values, |values|);
      if HasLineMatch(ctx, ts, j) {
        LineEntryIsMatch(ctx, ts, j);
      }
    case AnnotationData(_) =>
  }

  /** A series with a match contributes exactly that entry. */
  lemma SeriesEntriesComplete(ctx: ScanContext, ts: seq<EChartsTimeSeries>, j: nat)
    requires j < |ts| == ctx.totalSeries
    requires HasEventMatch(ctx, ts, j) || (HasLineMatch(ctx, ts, j) && SeriesEntries(ctx, j, ts[j]).Some?)
    ensures SeriesEntries(ctx, j, ts[j]).Some?
    ensures var found := SeriesEntries(ctx, j, ts[j]).value;
            && |found| == 1 && found[0].seriesIdx == j
            && (HasLineMatch(ctx, ts, j) ==> IsLineMatch(ctx, ts, found[0]))
            && (HasEventMatch(ctx, ts, j) ==> IsEventMatch(ctx, ts, found[0]))
  {
    if HasLineMatch(ctx, ts, j) {
      LineEntriesClosedForm(ctx, j, ts[j].data.values, |ts[j].data.values|);
      LineEntryIsMatch(ctx, ts, j);
    }
  }

  // ---------------------------------------------------------------------------
  // The scan

  /** Everything the scan has found is justified, in series order, one entry per series at most, within the limit. */
  lemma {:induction false} ScanEntriesSound(ctx: ScanContext, ts: seq<EChartsTimeSeries>, n: nat)
    requires n <= |ts| == ctx.totalSeries
    requires ScanEntries(ctx, ts, n).Some?
    ensures var es := ScanEntries(ctx, ts, n).value;
            && |es| <= n
            && |es| <= OptimizedModeSeriesLimit
            && InSeriesOrder(es)
            && forall k :: 0 <= k < |es| ==>
                 es[k].seriesIdx < n && (IsLineMatch(ctx, ts, es[k]) || IsEventMatch(ctx, ts, es[k]))
  {
    if n > 0 {
      var prev := ScanEntries(ctx, ts, n - 1);
      ScanEntriesSound(ctx, ts, n - 1);
      if prev.Some? && |prev.value| < OptimizedModeSeriesLimit {
        SeriesEntriesSound(ctx, ts, n - 1);
        var found := SeriesEntries(ctx, n - 1, ts[n - 1]).value;
        var es := prev.value + found;
        assert ScanEntries(ctx, ts, n).value == es;
        forall a, b | 0 <= a < b < |es| ensures es[a].seriesIdx < es[b].seriesIdx {
          if b >= |prev.value| {
            assert b == |prev.value| && es[b] == found[0];
          }
        }
      }
    }
  }

  /** Every match in a scanned series is reported, unless the limit cut the scan short. */
  lemma {:induction false} ScanEntriesComplete(ctx: ScanContext, ts: seq<EChartsTimeSeries>, n: nat, j: nat)
    requires j < n <= |ts| == ctx.totalSeries
    requires ScanEntries(ctx, ts, n).Some? && |ScanEntries(ctx, ts, n).value| < OptimizedModeSeriesLimit
    requires HasLineMatch(ctx, ts, j) || HasEventMatch(ctx, ts, j)
    ensures var es := ScanEntries(ctx, ts, n).value;
            exists k :: 0 <= k < |es| && es[k].seriesIdx == j
                        && (HasLineMatch(ctx, ts, j) ==> IsLineMatch(ctx, ts, es[k]))
                        && (HasEventMatch(ctx, ts, j) ==> IsEventMatch(ctx, ts, es[k]))
  {
    var prev := ScanEntries(ctx, ts, n - 1);
    var es := ScanEntries(ctx, ts, n).value;
    assert prev.Some? && |prev.value| < OptimizedModeSeriesLimit;
    var found := SeriesEntries(ctx, n - 1, ts[n - 1]).value;
    assert es == prev.value + found;
    if j == n - 1 {
      SeriesEntriesComplete(ctx, ts, j);
      assert es[|prev.value|] == found[0];
    } else {
      ScanEntriesComplete(ctx, ts, n - 1, j);
      var k :| 0 <= k < |prev.value| && prev.value[k].seriesIdx == j
               && (HasLineMatch(ctx, ts, j) ==> IsLineMatch(ctx, ts, prev.value[k]))
               && (HasEventMatch(ctx, ts, j) ==> IsEventMatch(ctx, ts, prev.value[k]));
      assert es[k] == prev.value[k];
    }
  }

  /** The scan of a prefix reads only that prefix of the series. */
  lemma {:induction false} ScanEntriesPrefix(ctx: ScanContext, ts: seq<EChartsTimeSeries>, ts': seq<EChartsTimeSeries>, n: nat)
    requires n <= |ts| == |ts'| == ctx.totalSeries
    requires ts[..n] == ts'[..n]
    ensures ScanEntries(ctx, ts, n) == ScanEntries(ctx, ts', n)
  {
    if n > 0 {
      assert ts[..n - 1] == ts'[..n - 1] && ts[n - 1] == ts'[n - 1] by {
        assert ts[..n][n - 1] == ts'[..n][n - 1];
        assert ts[..n - 1] == ts[..n][..n - 1];
        assert ts'[..n - 1] == ts'[..n][..n - 1];
      }
      ScanEntriesPrefix(ctx, ts, ts', n - 1);
    }
  }

  /** The scan throws only on a scatter series, scanned with a finite events cursor, that has no first annotation datum. */
  lemma {:induction false} ScanThrowsOnMalformedScatter(ctx: ScanContext, ts: seq<EChartsTimeSeries>, n: nat)
    requires n <= |ts| == ctx.totalSeries
    requires ScanEntries(ctx, ts, n).None?
    ensures ctx.focusedEventsX.Some? && ctx.focusedEventsY.Some?
    ensures exists j :: 0 <= j < n && IsScatterSeries(ts[j]) && !(ts[j].data.AnnotationData? && |ts[j].data.datums| > 0)
  {
    var prev := ScanEntries(ctx, ts, n - 1);
    if prev.None? {
      ScanThrowsOnMalformedScatter(ctx, ts, n - 1);
    } else {
      assert SeriesEntries(ctx, n - 1, ts[n - 1]).None?;
      assert EventEntries(ctx, n - 1, ts[n - 1]).None?;
    }
  }

  // ---------------------------------------------------------------------------
  // The resolver

  /**
   * Every entry `checkforNearbySeries` returns is a justified line or annotation
   * match; entries are in series order, at most one per series, and at most 1000.
   */
  lemma ResolveSound(data: EChartsDataFormat, pointInGrid: GridPoint, yBuffer: real, hasChart: bool,
                     format: real -> string, pointInGridEvents: Option<GridPoint>)
    requires Resolve(data, pointInGrid, yBuffer, hasChart, format, pointInGridEvents).Resolved?
    ensures var es := Resolve(data, pointInGrid, yBuffer, hasChart, format, pointInGridEvents).series;
            && |es| <= OptimizedModeSeriesLimit
            && |es| <= |data.timeSeries|
            && InSeriesOrder(es)
            && (pointInGrid.x.Some? && pointInGrid.y.Some? ==>
                  var ctx := ContextOf(data, pointInGrid.x.value, pointInGrid.y.value, yBuffer, format, pointInGridEvents);
                  forall k :: 0 <= k < |es| ==> IsLineMatch(ctx, data.timeSeries, es[k]) || IsEventMatch(ctx, data.timeSeries, es[k]))
  {
    if pointInGrid.x.Some? && pointInGrid.y.Some? {
      var ctx := ContextOf(data, pointInGrid.x.value, pointInGrid.y.value, yBuffer, format, pointInGridEvents);
      ScanEntriesSound(ctx, data.timeSeries, |data.timeSeries|);
    }
  }

  /** When fewer than 1000 entries are returned, every line match and every annotation match is among them. */
  lemma ResolveComplete(data: EChartsDataFormat, pointInGrid: GridPoint, yBuffer: real, hasChart: bool,
                        format: real -> string, pointInGridEvents: Option<GridPoint>, j: nat)
    requires pointInGrid.x.Some? && pointInGrid.y.Some?
    requires Resolve(data, pointInGrid, yBuffer, hasChart, format, pointInGridEvents).Resolved?
    requires |Resolve(data, pointInGrid, yBuffer, hasChart, format, pointInGridEvents).series| < OptimizedModeSeriesLimit
    requires var ctx := ContextOf(data, pointInGrid.x.value, pointInGrid.y.value, yBuffer, format, pointInGridEvents);
             HasLineMatch(ctx, data.timeSeries, j) || HasEventMatch(ctx, data.timeSeries, j)
    ensures var es := Resolve(data, pointInGrid, yBuffer, hasChart, format, pointInGridEvents).series;
            var ctx := ContextOf(data, pointInGrid.x.value, pointInGrid.y.value, yBuffer, format, pointInGridEvents);
            exists k :: 0 <= k < |es| && es[k].seriesIdx == j
                        && (HasLineMatch(ctx, data.timeSeries, j) ==> IsLineMatch(ctx, data.timeSeries, es[k]))
                        && (HasEventMatch(ctx, data.timeSeries, j) ==> IsEventMatch(ctx, data.timeSeries, es[k]))
  {
    var ctx := ContextOf(data, pointInGrid.x.value, pointInGrid.y.value, yBuffer, format, pointInGridEvents);
    ScanEntriesComplete(ctx, data.timeSeries, |data.timeSeries|, j);
  }

  /**
   * Once the first `i` series have produced 1000 entries, the series after them are
   * never examined: replacing them changes nothing.
   */
  lemma ResolveIgnoresSeriesPastLimit(data: EChartsDataFormat, rest: seq<EChartsTimeSeries>, i: nat, pointInGrid: GridPoint,
                                      yBuffer: real, hasChart: bool, format: real -> string, pointInGridEvents: Option<GridPoint>)
    requires pointInGrid.x.Some? && pointInGrid.y.Some?
    requires i <= |data.timeSeries| && |rest| == |data.timeSeries| - i
    requires var ctx := ContextOf(data, pointInGrid.x.value, pointInGrid.y.value, yBuffer, format, pointInGridEvents);
             var es := ScanEntries(ctx, data.timeSeries, i);
             es.Some? && |es.value| >= OptimizedModeSeriesLimit
    ensures var other := data.(timeSeries := data.timeSeries[..i] + rest);
            Resolve(other, pointInGrid, yBuffer, hasChart, format, pointInGridEvents)
            == Resolve(data, pointInGrid, yBuffer, hasChart, format, pointInGridEvents)
  {
    var ctx := ContextOf(data, pointInGrid.x.value, pointInGrid.y.value, yBuffer, format, pointInGridEvents);
    var other := data.(timeSeries := data.timeSeries[..i] + rest);
    assert ContextOf(other, pointInGrid.x.value, pointInGrid.y.value, yBuffer, format, pointInGridEvents) == ctx;
    assert other.timeSeries[..i] == data.timeSeries[..i];
    ScanEntriesPrefix(ctx, data.timeSeries, other.timeSeries, i);
    ScanFrozenAtLimit(ctx, data.timeSeries, i, |data.timeSeries|);
    ScanFrozenAtLimit(ctx, other.timeSeries, i, |data.timeSeries|);
  }

  /** The resolver throws only on a scatter series, met with a finite events cursor, that has no first annotation datum. */
  lemma ResolveThrowsOnlyOnMalformedScatter(data: EChartsDataFormat, pointInGrid: GridPoint, yBuffer: real, hasChart: bool,
                                            format: real -> string, pointInGridEvents: Option<GridPoint>)
    requires Resolve(data, pointInGrid, yBuffer, hasChart, format, pointInGridEvents).TypeErrorThrown?
    ensures pointInGridEvents.Some? && pointInGridEvents.value.x.Some? && pointInGridEvents.value.y.Some?
    ensures exists j :: 0 <= j < |data.timeSeries| && IsScatterSeries(data.timeSeries[j])
                        && !(data.timeSeries[j].data.AnnotationData? && |data.timeSeries[j].data.datums| > 0)
  {
    var ctx := ContextOf(data, pointInGrid.x.value, pointInGrid.y.value, yBuffer, format, pointInGridEvents);
    ScanThrowsOnMalformedScatter(ctx, data.timeSeries, |data.timeSeries|);
  }

  /** A series index is in `nearbySeriesIndexes` exactly when some line entry has it. */
  lemma {:induction false} LineIndexesMembership(es: seq<NearbySeriesInfo>, i: nat)
    ensures i in LineSeriesIndexes(es) <==> exists k :: 0 <= k < |es| && IsLineEntry(es[k]) && es[k].seriesIdx == i
  {
    if es != [] {
      var init, last := es[..|es| - 1], es[|es| - 1];
      LineIndexesMembership(init, i);
      if i in LineSeriesIndexes(es) && i in LineSeriesIndexes(init) {
        var k :| 0 <= k < |init| && IsLineEntry(init[k]) && init[k].seriesIdx == i;
        assert es[k] == init[k];
      }
      if exists k :: 0 <= k < |es| && IsLineEntry(es[k]) && es[k].seriesIdx == i {
        var k :| 0 <= k < |es| && IsLineEntry(es[k]) && es[k].seriesIdx == i;
        if k < |init| {
          assert init[k] == es[k];
        }
      }
    }
  }

  /** A series index is in `emphasizedSeriesIndexes` exactly when some emphasized line entry has it. */
  lemma {:induction false} ClosestIndexesMembership(es: seq<NearbySeriesInfo>, i: nat)
    ensures i in ClosestIndexes(es)
            <==> exists k :: 0 <= k < |es| && IsLineEntry(es[k]) && es[k].isClosestToCursor && es[k].seriesIdx == i
  {
    if es != [] {
      var init, last := es[..|es| - 1], es[|es| - 1];
      ClosestIndexesMembership(init, i);
      if i in ClosestIndexes(es) && i in ClosestIndexes(init) {
        var k :| 0 <= k < |init| && IsLineEntry(init[k]) && init[k].isClosestToCursor && init[k].seriesIdx == i;
        assert es[k] == init[k];
      }
      if exists k :: 0 <= k < |es| && IsLineEntry(es[k]) && es[k].isClosestToCursor && es[k].seriesIdx == i {
        var k :| 0 <= k < |es| && IsLineEntry(es[k]) && es[k].isClosestToCursor && es[k].seriesIdx == i;
        if k < |init| {
          assert init[k] == es[k];
        }
      }
    }
  }

  /** A series index is in `nonEmphasizedSeriesIndexes` exactly when some non-emphasized line entry has it. */
  lemma {:induction false} NotClosestIndexesMembership(es: seq<NearbySeriesInfo>, i: nat)
    ensures i in NotClosestIndexes(es)
            <==> exists k :: 0 <= k < |es| && IsLineEntry(es[k]) && !es[k].isClosestToCursor && es[k].seriesIdx == i
  {
    if es != [] {
      var init, last := es[..|es| - 1], es[|es| - 1];
      NotClosestIndexesMembership(init, i);
      if i in NotClosestIndexes(es) && i in NotClosestIndexes(init) {
        var k :| 0 <= k < |init| && IsLineEntry(init[k]) && !init[k].isClosestToCursor && init[k].seriesIdx == i;
        assert es[k] == init[k];
      }
      if exists k :: 0 <= k < |es| && IsLineEntry(es[k]) && !es[k].isClosestToCursor && es[k].seriesIdx == i {
        var k :| 0 <= k < |es| && IsLineEntry(es[k]) && !es[k].isClosestToCursor && es[k].seriesIdx == i;
        if k < |init| {
          assert init[k] == es[k];
        }
      }
    }
  }

  /**
   * On entries with one entry per series, the emphasized and the non-emphasized
   * series partition the series with a line entry.
   */
  lemma IndexesPartition(es: seq<NearbySeriesInfo>, i: nat)
    requires InSeriesOrder(es)
    ensures i in LineSeriesIndexes(es) <==> i in ClosestIndexes(es) || i in NotClosestIndexes(es)
    ensures !(i in ClosestIndexes(es) && i in NotClosestIndexes(es))
  {
    LineIndexesMembership(es, i);
    ClosestIndexesMembership(es, i);
    NotClosestIndexesMembership(es, i);
  }

  /**
   * The commands a resolution on a chart issues: one downplay per non-emphasized
   * series, a downplay of all of them, then a highlight of the emphasized series
   * without blur if any line entry is emphasized, and otherwise of every series with
   * a line entry, keeping the others unblurred. The emphasized and non-emphasized
   * series partition the series with a line entry.
   */
  lemma ResolveCommands(data: EChartsDataFormat, pointInGrid: GridPoint, yBuffer: real,
                        format: real -> string, pointInGridEvents: Option<GridPoint>, i: nat)
    requires pointInGrid.x.Some? && pointInGrid.y.Some?
    requires Resolve(data, pointInGrid, yBuffer, true, format, pointInGridEvents).Resolved?
    ensures var r := Resolve(data, pointInGrid, yBuffer, true, format, pointInGridEvents);
            var es := r.series;
            var non := NotClosestIndexes(es);
            && (i in LineSeriesIndexes(es) <==> i in ClosestIndexes(es) || i in non)
            && !(i in ClosestIndexes(es) && i in non)
            && r.actions
               == DownplayEach(non) + [Downplay(non)]
                  + [if exists k :: 0 <= k < |es| && IsLineEntry(es[k]) && es[k].isClosestToCursor
                     then Highlight(ClosestIndexes(es), false)
                     else Highlight(LineSeriesIndexes(es), true)]
  {
    var es := Resolve(data, pointInGrid, yBuffer, true, format, pointInGridEvents).series;
    ResolveSound(data, pointInGrid, yBuffer, true, format, pointInGridEvents);
    IndexesPartition(es, i);
    if exists k :: 0 <= k < |es| && IsLineEntry(es[k]) && es[k].isClosestToCursor {
      var k :| 0 <= k < |es| && IsLineEntry(es[k]) && es[k].isClosestToCursor;
      ClosestIndexesMembership(es, es[k].seriesIdx);
    } else if |ClosestIndexes(es)| > 0 {
      ClosestIndexesMembership(es, ClosestIndexes(es)[0]);
    }
  }

  // ---------------------------------------------------------------------------
  // Resolving from the pointer

  /**
   * What `getNearbySeriesData` returns: at most one entry per series, each a line
   * entry (no series type) or an annotation entry; and with a pinned position the
   * pointer makes no difference.
   */
  lemma NearbySeriesDataSound(mousePos: CursorCoordinates, otherMousePos: CursorCoordinates,
                              pinnedPos: Option<CursorCoordinates>, chartData: EChartsDataFormat,
                              chart: Option<ChartInstance>, format: real -> string, showAllSeries: bool)
    ensures var r := NearbySeriesData(Some(mousePos), pinnedPos, chartData, chart, format, showAllSeries);
            && (r.Resolved? ==>
                  && |r.series| <= |chartData.timeSeries|
                  && InSeriesOrder(r.series)
                  && forall k :: 0 <= k < |r.series| ==> r.series[k].seriesType in {None, Some(Scatter)})
            && (pinnedPos.Some? ==>
                  r == NearbySeriesData(Some(otherMousePos), pinnedPos, chartData, chart, format, showAllSeries))
  {
    var r := NearbySeriesData(Some(mousePos), pinnedPos, chartData, chart, format, showAllSeries);
    if chart.Some? && chart.value.hasModel && (pinnedPos.Some? || (mousePos.target.Some? && mousePos.target.value.inChart)) {
      var c := chart.value;
      var pos := if pinnedPos.Some? then pinnedPos.value else mousePos;
      var px, py := pos.plotCanvasX.GetOr(0.0), pos.plotCanvasY.GetOr(0.0);
      var pointInGrid := c.convertFromPixel(px, py);
      var yBuffer := GetYBuffer(c.yInterval, |chartData.timeSeries|, showAllSeries);
      var events := Some(c.convertFromPixelEvents(px, py));
      if c.containPixel(px, py) && pointInGrid.x.Some? && pointInGrid.y.Some? && r.Resolved? {
        assert r == Resolve(chartData, pointInGrid, yBuffer, true, format, events);
        ResolveSound(chartData, pointInGrid, yBuffer, true, format, events);
      }
    }
  }

  /**
   * A pointer on the chart (or a pinned position) outside the grid, or whose grid
   * coordinates are undefined, downplays every series one by one and reports nothing.
   */
  lemma LeavingGridClearsHighlights(mousePos: CursorCoordinates, pinnedPos: Option<CursorCoordinates>,
                                    chartData: EChartsDataFormat, c: ChartInstance, format: real -> string,
                                    showAllSeries: bool)
    requires c.hasModel
    requires pinnedPos.Some? || (mousePos.target.Some? && mousePos.target.value.inChart)
    requires var pos := if pinnedPos.Some? then pinnedPos.value else mousePos;
             var px, py := pos.plotCanvasX.GetOr(0.0), pos.plotCanvasY.GetOr(0.0);
             !c.containPixel(px, py) || c.convertFromPixel(px, py).x.None? || c.convertFromPixel(px, py).y.None?
    ensures var r := NearbySeriesData(Some(mousePos), pinnedPos, chartData, Some(c), format, showAllSeries);
            && r.Resolved? && r.series == []
            && |r.actions| == |chartData.timeSeries|
            && forall k :: 0 <= k < |r.actions| ==> r.actions[k] == DownplaySeries(k)
  {
  }

  // ---------------------------------------------------------------------------
  // Worked examples

  /** One series `[1, 1, 1]`, cursor at column 1 and value 1, buffer 0.5: one emphasized entry. */
  lemma ExampleSingleSeries(t0: real, t1: real, t2: real, format: real -> string)
    ensures var data := EChartsDataFormat([EChartsTimeSeries(LineValues([Num(1.0), Num(1.0), Num(1.0)]), None, None)],
                                          [t0, t1, t2], None);
            Resolve(data, GridPoint(Some(1.0), Some(1.0)), 0.5, true, format, None)
            == Resolved([NearbySeriesInfo(0, 1.0, "test", ToMilliseconds(t1), "#FFFF00", t1, 1.0, format(1.0), true, None, None)],
                        [Downplay([]), Highlight([0], false)])
  {
    var values := [Num(1.0), Num(1.0), Num(1.0)];
    var series := EChartsTimeSeries(LineValues(values), None, None);
    var data := EChartsDataFormat([series], [t0, t1, t2], None);
    var ctx := ContextOf(data, 1.0, 1.0, 0.5, format, None);
    assert (1.0).Floor == 1;
    assert IsIndexOf(ctx.cursorX, 3);
    assert LineMatchAt(values, 1, 1.0, 1.0, 0.5);
    LineEntriesClosedForm(ctx, 0, values, 3);
    assert PercentRangeToCheck(1) == 100.0;
    var e := NearbySeriesInfo(0, 1.0, "test", ToMilliseconds(t1), "#FFFF00", t1, 1.0, format(1.0), true, None, None);
    assert ctx.cursorX == 1.0 && values[1].n == 1.0;
    assert LineEntry(ctx, 0, 1, 1.0) == e;
    assert LineEntriesUpTo(ctx, 0, values, 3) == [e];
    assert EventEntries(ctx, 0, series) == Some([]);
    assert [] + [e] == [e];
    assert SeriesEntries(ctx, 0, series) == Some([e]);
    assert ScanEntries(ctx, data.timeSeries, 0) == Some([]);
    assert data.timeSeries[0] == series;
    assert ScanEntries(ctx, data.timeSeries, 1) == Some([e]);
    assert [e][..0] == [];
    assert NotClosestIndexes([e]) == [] && ClosestIndexes([e]) == [0];
  }

  /** An annotation series whose first point sits at index 2 of the secondary axis: reported at 2. */
  lemma ExampleAnnotationHit(alt: seq<real>, events: seq<Event>, format: real -> string)
    requires |alt| > 2
    ensures var series := EChartsTimeSeries(AnnotationData([AnnotationSeriesDatum(ValueTuple(2.0, 1.0, Some(events)), None)]),
                                            Some(Scatter), None);
            var data := EChartsDataFormat([series], [], Some(alt));
            Resolve(data, GridPoint(Some(0.0), Some(0.0)), 1.0, false, format, Some(GridPoint(Some(2.0), Some(0.5))))
            == Resolved([NearbySeriesInfo(0, 2.0, "test", alt[2], "#00FFFF", alt[2], 0.0, format(0.0), false,
                                          Some(Scatter), Some(events))], [])
  {
    var series := EChartsTimeSeries(AnnotationData([AnnotationSeriesDatum(ValueTuple(2.0, 1.0, Some(events)), None)]),
                                    Some(Scatter), None);
    var data := EChartsDataFormat([series], [], Some(alt));
    var ctx := ContextOf(data, 0.0, 0.0, 1.0, format, Some(GridPoint(Some(2.0), Some(0.5))));
    assert (2.0).Floor == 2;
    assert AltAxisAt(alt, 2.0) == alt[2];
    var e := NearbySeriesInfo(0, 2.0, "test", alt[2], "#00FFFF", alt[2], 0.0, format(0.0), false, Some(Scatter), Some(events));
    assert EventEntries(ctx, 0, series) == Some([e]);
    assert SeriesEntries(ctx, 0, series) == Some([e]);
    assert ScanEntries(ctx, data.timeSeries, 0) == Some([]);
    assert data.timeSeries[0] == series;
    assert [] + [e] == [e];
    assert ScanEntries(ctx, data.timeSeries, 1) == Some([e]);
  }

  /** The same annotation series with the events cursor at index 3: nothing is reported. */
  lemma ExampleAnnotationMiss(alt: seq<real>, events: seq<Event>, format: real -> string)
    ensures var series := EChartsTimeSeries(AnnotationData([AnnotationSeriesDatum(ValueTuple(2.0, 1.0, Some(events)), None)]),
                                            Some(Scatter), None);
            var data := EChartsDataFormat([series], [], Some(alt));
            Resolve(data, GridPoint(Some(0.0), Some(0.0)), 1.0, false, format, Some(GridPoint(Some(3.0), Some(0.5))))
            == Resolved([], [])
  {
    var series := EChartsTimeSeries(AnnotationData([AnnotationSeriesDatum(ValueTuple(2.0, 1.0, Some(events)), None)]),
                                    Some(Scatter), None);
    var data := EChartsDataFormat([series], [], Some(alt));
    var ctx := ContextOf(data, 0.0, 0.0, 1.0, format, Some(GridPoint(Some(3.0), Some(0.5))));
    assert EventEntries(ctx, 0, series) == Some([]);
    assert SeriesEntries(ctx, 0, series) == Some([]);
    assert ScanEntries(ctx, data.timeSeries, 0) == Some([]);
    assert data.timeSeries[0] == series;
    var none: seq<NearbySeriesInfo> := [];
    assert none + none == none;
    assert ScanEntries(ctx, data.timeSeries, 1) == Some([]);
  }
}
