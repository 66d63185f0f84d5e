/**
 * The page controller (src/js/main.js): cleaning the loaded data, the
 * chart-data record handed to every chart, the order in which the charts
 * are refreshed, and the event handlers as transitions of the widget
 * state.  The charts themselves are modelled in their own modules; here a
 * refresh is recorded as a `Call` in the controller's log.
 */
module PageController {
  import opened JsValues
  import opened CoinData

  /* ---------- data preparation (lines 62-84) ---------- */

  /** A record as loaded: `price_usd` may be `null` or missing. */
  datatype RawRecord = RawRecord(date: Millis, priceUsd: Option<real>, marketCap: real, vol24h: real)

  /** `!(d["price_usd"] == null)`: loose equality catches `null` and `undefined` alike. */
  predicate HasPrice(d: RawRecord)
  {
    d.priceUsd.Some?
  }

  /** The record once its fields are coerced in place. */
  function Coerce(d: RawRecord): (r: Record)
    requires HasPrice(d)
    ensures r.date == d.date && d.priceUsd == Some(r.priceUsd)
    ensures r.marketCap == d.marketCap && r.vol24h == d.vol24h
  {
    Record(d.date, d.priceUsd.value, d.marketCap, d.vol24h)
  }

  /** `data[coin].filter(d => !(d["price_usd"] == null))` followed by the coercions. */
  function Retained(raw: seq<RawRecord>): (r: seq<Record>)
    ensures |r| <= |raw|
    ensures forall x :: x in r <==> exists d :: d in raw && HasPrice(d) && Coerce(d) == x
    ensures (forall k :: 0 <= k < |raw| ==> HasPrice(raw[k])) ==> |r| == |raw|
  {
    if raw == [] then []
    else (if HasPrice(raw[0]) then [Coerce(raw[0])] else []) + Retained(raw[1..])
  }

  /** The filter keeps order: cleaning a concatenation concatenates the cleaned parts. */
  lemma {:induction false} RetainedAppend(a: seq<RawRecord>, b: seq<RawRecord>)
    ensures Retained(a + b) == Retained(a) + Retained(b)
  {
    if a == [] {
      assert a + b == b;
    } else {
      var head := if HasPrice(a[0]) then [Coerce(a[0])] else [];
      assert (a + b)[1..] == a[1..] + b;
      assert Retained(a + b) == head + Retained(a[1..] + b);
      RetainedAppend(a[1..], b);
      assert Retained(a) == head + Retained(a[1..]);
    }
  }

  /** `xs.slice(-1)[0]`: the last element, `undefined` for an empty array. */
  function Last(xs: seq<Record>): (r: Option<Record>)
    ensures r.None? <==> |xs| == 0
    ensures r.Some? ==> r.value == xs[|xs| - 1]
  {
    if |xs| == 0 then None else Some(xs[|xs| - 1])
  }

  /**
   * A coin's donut snapshot holds its last record with a price, and is
   * `undefined` exactly when no record has one.
   */
  lemma {:induction false} LastRetainedIsLastPriced(raw: seq<RawRecord>)
    ensures Last(Retained(raw)).None? <==> forall k :: 0 <= k < |raw| ==> !HasPrice(raw[k])
    ensures Last(Retained(raw)).Some? ==>
      exists k :: 0 <= k < |raw| && HasPrice(raw[k]) && Last(Retained(raw)).value == Coerce(raw[k]) &&
        forall j :: k < j < |raw| ==> !HasPrice(raw[j])
  {
    if raw != [] {
      var n := |raw| - 1;
      var init := raw[..n];
      assert raw == init + [raw[n]];
      RetainedAppend(init, [raw[n]]);
      assert [raw[n]][1..] == [];
      LastRetainedIsLastPriced(init);
      if !HasPrice(raw[n]) {
        assert Retained(raw) == Retained(init);
        if Last(Retained(init)).Some? {
          var k :| 0 <= k < |init| && HasPrice(init[k]) && Last(Retained(init)).value == Coerce(init[k]) &&
            forall j :: k < j < |init| ==> !HasPrice(init[j]);
          assert raw[k] == init[k];
        }
      } else {
        assert Last(Retained(raw)).value == Coerce(raw[n]);
      }
    }
  }

  /** The `for..in` keys of a loaded object are distinct. */
  predicate DistinctCoins(data: seq<(Coin, seq<RawRecord>)>)
  {
    forall a, b :: 0 <= a < b < |data| ==> data[a].0 != data[b].0
  }

  /** The coins of the loaded object. */
  function CoinsOf(data: seq<(Coin, seq<RawRecord>)>): set<Coin>
  {
    set k | 0 <= k < |data| :: data[k].0
  }

  /** One donut snapshot per loaded coin, in iteration order. */
  function Snapshots(data: seq<(Coin, seq<RawRecord>)>): (r: seq<Snapshot>)
    ensures |r| == |data|
    ensures forall k :: 0 <= k < |data| ==> r[k].coin == data[k].0 && r[k].data == Last(Retained(data[k].1))
  {
    seq(|data|, k requires 0 <= k < |data| => Snapshot(data[k].0, Last(Retained(data[k].1))))
  }

  /** The coins of one more loaded entry. */
  lemma CoinsOfExtend(data: seq<(Coin, seq<RawRecord>)>, n: nat)
    requires n < |data|
    ensures CoinsOf(data[..n + 1]) == CoinsOf(data[..n]) + {data[n].0}
  {
    assert forall k :: 0 <= k < n ==> data[..n + 1][k] == data[..n][k];
  }

  /** The snapshots of one more loaded entry. */
  lemma SnapshotsExtend(data: seq<(Coin, seq<RawRecord>)>, n: nat)
    requires n < |data|
    ensures Snapshots(data[..n + 1]) == Snapshots(data[..n]) + [Snapshot(data[n].0, Last(Retained(data[n].1)))]
  {
    assert forall k :: 0 <= k < n ==> data[..n + 1][k] == data[..n][k];
  }

  /* ---------- refreshing the charts (lines 122-142) ---------- */

  /** The record `createChartData` builds. */
  datatype ChartData = ChartData(coins: seq<Coin>, yVariable: string, dates: DateRange,
                                 data: map<Coin, seq<Record>>, donutData: seq<Snapshot>)

  /** The four charts of the page. */
  datatype Chart = Line | Donut1 | Donut2 | Timeline

  /** One `updateVis` call and the chart data it receives. */
  datatype Call = Call(chart: Chart, data: ChartData)

  /**
   * The line chart's `updateVis` throws: `chartData.data[coin].filter` on a
   * selected coin the data has no entry for (src/js/lineChart.js:81).
   */
  predicate LineThrows(d: ChartData)
  {
    exists q :: 0 <= q < |d.coins| && d.coins[q] !in d.data
  }

  /**
   * A donut's `updateVis` throws: the pie's value accessor reads
   * `d.data[vis.variable]` and some snapshot's `data` is `undefined`
   * (js/donutChart.js:29-33).  Both donuts lay out the same snapshots.
   */
  predicate PieThrows(d: ChartData)
  {
    exists q :: 0 <= q < |d.donutData| && d.donutData[q].data.None?
  }

  /** Some chart's `updateVis` throws, so `updateCharts` does. */
  predicate RefreshThrows(d: ChartData)
  {
    LineThrows(d) || PieThrows(d)
  }

  /**
   * `updateCharts`: the line chart, the volume donut, the market-cap donut
   * and the timeline, in that order, each handed the chart data (the
   * timeline's copy with its dates replaced by the defaults); a chart whose
   * `updateVis` throws is the last one called.
   */
  function Refresh(d: ChartData): (r: seq<Call>)
    ensures 1 <= |r| <= 4 && r[0] == Call(Line, d)
    ensures |r| == 1 <==> LineThrows(d)
    ensures |r| >= 2 ==> r[1] == Call(Donut1, d)
    ensures |r| == 2 <==> !LineThrows(d) && PieThrows(d)
    ensures |r| == 4 <==> !RefreshThrows(d)
    ensures |r| == 4 ==> r[2] == Call(Donut2, d) && r[3] == Call(Timeline, d.(dates := Defaults))
  {
    if LineThrows(d) then [Call(Line, d)]
    else if PieThrows(d) then [Call(Line, d), Call(Donut1, d)]
    else [Call(Line, d), Call(Donut1, d), Call(Donut2, d), Call(Timeline, d.(dates := Defaults))]
  }

  /**
   * Whatever the slider holds, the charts that are reached are the same,
   * and the timeline, when reached, is handed the same data.
   */
  lemma TimelineIgnoresSlider(d: ChartData, e: ChartData)
    requires d.(dates := e.dates) == e
    ensures |Refresh(d)| == |Refresh(e)|
    ensures |Refresh(d)| == 4 ==> Refresh(d)[3] == Refresh(e)[3] && Refresh(d)[3].data.dates == Defaults
  {
    assert LineThrows(d) == LineThrows(e) && PieThrows(d) == PieThrows(e);
  }

  /** No record of `raw` has a price. */
  predicate Unpriced(raw: seq<RawRecord>)
  {
    forall k :: 0 <= k < |raw| ==> !HasPrice(raw[k])
  }

  /**
   * After the data is loaded, the donuts throw exactly when some loaded
   * coin has no record with a price, since its snapshot is `undefined`.
   */
  lemma PieThrowsExactlyOnUnpricedCoin(d: ChartData, data: seq<(Coin, seq<RawRecord>)>)
    requires d.donutData == Snapshots(data)
    ensures PieThrows(d) <==> exists q :: 0 <= q < |data| && Unpriced(data[q].1)
  {
    forall q | 0 <= q < |data|
      ensures d.donutData[q].data.None? <==> Unpriced(data[q].1)
    {
      LastRetainedIsLastPriced(data[q].1);
    }
  }

  /** The slider's step: one day in milliseconds. */
  const Day: int := 86400000

  /**
   * The controller and the state of the widgets its handlers read and
   * write: the coin and variable selects, the date slider and its labels.
   * `calls` logs every chart refresh.
   */
  class Controller {
    var filteredData: map<Coin, seq<Record>>
    var donutData: seq<Snapshot>
    var coinSelection: seq<Coin>
    var yVariable: string
    var sliderValues: DateRange
    var labels: DateRange
    var calls: seq<Call>

    /**
     * A controller whose slider sits at the default range; the selects
     * start from the page's initial options.
     */
    constructor (coins: seq<Coin>, variable: string)
      ensures filteredData == map[] && donutData == []
      ensures coinSelection == coins && yVariable == variable
      ensures sliderValues == Defaults && labels == Defaults && calls == []
    {
      filteredData := map[];
      donutData := [];
      coinSelection := coins;
      yVariable := variable;
      sliderValues := Defaults;
      labels := Defaults;
      calls := [];
    }

    /**
     * `createChartData`: the selects' values, the slider's committed values
     * (not the labels') and the cleaned data.
     */
    function CreateChartData(): (r: ChartData)
      reads this
      ensures r.coins == coinSelection && r.yVariable == yVariable && r.dates == sliderValues
      ensures r.data == filteredData && r.donutData == donutData
    {
      ChartData(coinSelection, yVariable, sliderValues, filteredData, donutData)
    }

    /**
     * `prepareData`: for each loaded coin, in order, store its cleaned
     * records and push its snapshot.
     */
    method PrepareData(data: seq<(Coin, seq<RawRecord>)>)
      requires DistinctCoins(data)
      modifies this
      ensures filteredData.Keys == old(filteredData).Keys + CoinsOf(data)
      ensures forall k :: 0 <= k < |data| ==> filteredData[data[k].0] == Retained(data[k].1)
      ensures forall c :: c in old(filteredData) && c !in CoinsOf(data) ==> filteredData[c] == old(filteredData)[c]
      ensures donutData == old(donutData) + Snapshots(data)
      ensures coinSelection == old(coinSelection) && yVariable == old(yVariable)
      ensures sliderValues == old(sliderValues) && labels == old(labels) && calls == old(calls)
    {
      ghost var f0, d0 := filteredData, donutData;
      for n := 0 to |data|
        invariant filteredData.Keys == f0.Keys + CoinsOf(data[..n])
        invariant forall k :: 0 <= k < n ==> filteredData[data[k].0] == Retained(data[k].1)
        invariant forall c :: c in f0 && c !in CoinsOf(data[..n]) ==> filteredData[c] == f0[c]
        invariant donutData == d0 + Snapshots(data[..n])
        invariant coinSelection == old(coinSelection) && yVariable == old(yVariable)
        invariant sliderValues == old(sliderValues) && labels == old(labels) && calls == old(calls)
      {
        CoinsOfExtend(data, n);
        SnapshotsExtend(data, n);
        AddCoin(data[n].0, data[n].1);
      }
      assert data[..|data|] == data;
    }

    /** One pass of the `for..in`: store the coin's cleaned records and push its snapshot. */
    method AddCoin(coin: Coin, raw: seq<RawRecord>)
      modifies this
      ensures filteredData == old(filteredData)[coin := Retained(raw)]
      ensures donutData == old(donutData) + [Snapshot(coin, Last(Retained(raw)))]
      ensures coinSelection == old(coinSelection) && yVariable == old(yVariable)
      ensures sliderValues == old(sliderValues) && labels == old(labels) && calls == old(calls)
    {
      filteredData := filteredData[coin := Retained(raw)];
      donutData := donutData + [Snapshot(coin, Last(filteredData[coin]))];
    }

    /**
     * `updateCharts`: refresh the four charts from the current widget
     * state, stopping at the first chart that throws.
     */
    method UpdateCharts() returns (r: Result<()>)
      modifies this
      ensures calls == old(calls) + Refresh(old(CreateChartData()))
      ensures r.Err? <==> RefreshThrows(old(CreateChartData()))
      ensures filteredData == old(filteredData) && donutData == old(donutData)
      ensures coinSelection == old(coinSelection) && yVariable == old(yVariable)
      ensures sliderValues == old(sliderValues) && labels == old(labels)
    {
      var d := CreateChartData();
      calls := calls + [Call(Line, d)];
      if LineThrows(d) {
        return Err(TypeError);
      }
      calls := calls + [Call(Donut1, d)];
      if PieThrows(d) {
        return Err(TypeError);
      }
      calls := calls + [Call(Donut2, d)];
      calls := calls + [Call(Timeline, d.(dates := Defaults))];
      return Ok(());
    }

    /**
     * A `slide` event as the page wires it: the handler writes the labels
     * from `ui.values` and refreshes the charts, and only after it returns
     * does the slider widget commit the moved handle.  The refresh
     * therefore reads the values the slider held before the event, and a
     * refresh that throws leaves the handle where it was.
     */
    method OnDateSliderChangedAsWritten(ui: DateRange)
      modifies this
      ensures labels == ui
      ensures sliderValues == if RefreshThrows(old(CreateChartData())) then old(sliderValues) else ui
      ensures calls == old(calls) + Refresh(old(CreateChartData()))
      ensures calls[|old(calls)|].data.dates == old(sliderValues)
      ensures filteredData == old(filteredData) && donutData == old(donutData)
      ensures coinSelection == old(coinSelection) && yVariable == old(yVariable)
    {
      labels := ui;
      var r := UpdateCharts();
      if r.Ok? {
        sliderValues := ui;
      }
    }

    /** A `slide` event as evidently intended: the charts see the dates the labels show. */
    method OnDateSliderChanged(ui: DateRange)
      modifies this
      ensures labels == ui && sliderValues == ui
      ensures calls == old(calls) + Refresh(old(CreateChartData()).(dates := ui))
      ensures filteredData == old(filteredData) && donutData == old(donutData)
      ensures coinSelection == old(coinSelection) && yVariable == old(yVariable)
    {
      labels := ui;
      sliderValues := ui;
      var _ := UpdateCharts();
    }

    /**
     * `onCoinSelectChanged`: the select already holds the new coins; only
     * the line chart is refreshed.
     */
    method OnCoinSelectChanged(selection: seq<Coin>)
      modifies this
      ensures coinSelection == selection
      ensures calls == old(calls) + [Call(Line, old(CreateChartData()).(coins := selection))]
      ensures filteredData == old(filteredData) && donutData == old(donutData) && yVariable == old(yVariable)
      ensures sliderValues == old(sliderValues) && labels == old(labels)
    {
      coinSelection := selection;
      calls := calls + [Call(Line, CreateChartData())];
    }

    /**
     * `onVariableSelectChanged`: the select already holds the new variable;
     * only the line chart is refreshed.
     */
    method OnVariableSelectChanged(variable: string)
      modifies this
      ensures yVariable == variable
      ensures calls == old(calls) + [Call(Line, old(CreateChartData()).(yVariable := variable))]
      ensures filteredData == old(filteredData) && donutData == old(donutData) && coinSelection == old(coinSelection)
      ensures sliderValues == old(sliderValues) && labels == old(labels)
    {
      yVariable := variable;
      calls := calls + [Call(Line, CreateChartData())];
    }

    /**
     * `onDonutArcClicked`: the clicked arc's coin becomes the whole
     * selection, then every chart is refreshed.
     */
    method OnDonutArcClicked(coin: Coin)
      modifies this
      ensures coinSelection == [coin]
      ensures calls == old(calls) + Refresh(old(CreateChartData()).(coins := [coin]))
      ensures filteredData == old(filteredData) && donutData == old(donutData) && yVariable == old(yVariable)
      ensures sliderValues == old(sliderValues) && labels == old(labels)
    {
      coinSelection := [coin];
      var _ := UpdateCharts();
    }

    /**
     * `onBrushed`: the brushed dates, or the timeline's whole date range
     * when the brush has no selection, go into the slider and the labels;
     * then every chart is refreshed.
     */
    method OnBrushed(selection: Option<DateRange>, fullRange: DateRange)
      modifies this
      ensures sliderValues == selection.GetOr(fullRange) && labels == sliderValues
      ensures selection.None? ==> sliderValues == fullRange
      ensures calls == old(calls) + Refresh(old(CreateChartData()).(dates := selection.GetOr(fullRange)))
      ensures filteredData == old(filteredData) && donutData == old(donutData)
      ensures coinSelection == old(coinSelection) && yVariable == old(yVariable)
    {
      var values := selection.GetOr(fullRange);
      sliderValues := values;
      labels := values;
      var _ := UpdateCharts();
    }

    /**
     * `onBrushEnd`: with a selection nothing happens; a cleared brush puts
     * the slider and the labels back to the defaults and refreshes.
     */
    method OnBrushEnd(selection: Option<DateRange>)
      modifies this
      ensures selection.Some? ==> calls == old(calls) && sliderValues == old(sliderValues) && labels == old(labels)
      ensures selection.None? ==> sliderValues == Defaults && labels == Defaults
      ensures selection.None? ==> calls == old(calls) + Refresh(old(CreateChartData()).(dates := Defaults))
      ensures filteredData == old(filteredData) && donutData == old(donutData)
      ensures coinSelection == old(coinSelection) && yVariable == old(yVariable)
    {
      if selection.Some? {
        return;
      }
      sliderValues := Defaults;
      labels := Defaults;
      var _ := UpdateCharts();
    }
  }

  /** One coin with one priced record at the default start. */
  function OneCoin(): seq<(Coin, seq<RawRecord>)>
  {
    [("bitcoin", [RawRecord(DefaultStart, Some(1.0), 1.0, 1.0)])]
  }

  /**
   * Moving the left handle one day in, as written, on a page showing one
   * loaded coin: the line chart is refreshed with the old range while the
   * label already shows the new one.
   */
  method SlideScenarioAsWritten() returns (shown: DateRange, caption: DateRange, held: DateRange)
    ensures shown == Defaults
    ensures caption == DateRange(DefaultStart + Day, DefaultEnd) && held == caption
    ensures shown != caption
  {
    var c := new Controller(["bitcoin"], PriceUsd);
    c.PrepareData(OneCoin());
    assert Retained(OneCoin()[0].1) == [Coerce(OneCoin()[0].1[0])];
    assert !RefreshThrows(c.CreateChartData());
    c.OnDateSliderChangedAsWritten(DateRange(DefaultStart + Day, DefaultEnd));
    shown := c.calls[0].data.dates;
    caption := c.labels;
    held := c.sliderValues;
  }

  /** The same move with the intended handler: chart, label and slider agree. */
  method SlideScenario() returns (shown: DateRange, caption: DateRange, held: DateRange)
    ensures shown == caption == held == DateRange(DefaultStart + Day, DefaultEnd)
  {
    var c := new Controller(["bitcoin"], PriceUsd);
    c.PrepareData(OneCoin());
    c.OnDateSliderChanged(DateRange(DefaultStart + Day, DefaultEnd));
    shown := c.calls[0].data.dates;
    caption := c.labels;
    held := c.sliderValues;
  }

  /**
   * Clearing the brush after any brushing brings back the defaults: the
   * slider holds them and every chart the last refresh reaches sees them.
   */
  method BrushThenClear(coins: seq<Coin>, variable: string, selection: Option<DateRange>, fullRange: DateRange)
    returns (held: DateRange, lastDates: seq<DateRange>)
    ensures held == Defaults
    ensures 1 <= |lastDates| <= 4 && forall q :: 0 <= q < |lastDates| ==> lastDates[q] == Defaults
  {
    var c := new Controller(coins, variable);
    c.OnBrushed(selection, fullRange);
    var n := |c.calls|;
    c.OnBrushEnd(None);
    var last := c.calls[n..];
    held := c.sliderValues;
    lastDates := seq(|last|, q requires 0 <= q < |last| => last[q].data.dates);
  }
}
