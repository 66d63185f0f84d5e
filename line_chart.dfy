/**
 * The data logic of the line chart's `updateVis` (src/js/lineChart.js):
 * the date window applied to every selected coin, the x extents, the
 * hover choice of the sample nearest to the mouse, the y-axis tick
 * abbreviation, the y-axis label and the legend rows.  Drawing, scales
 * and transitions are not modelled.
 */
module LineChart {
  import opened JsValues
  import opened CoinData

  /* ---------- date window (lines 79-84) ---------- */

  /** A record lies in the window when `dates[0] <= date <= dates[1]`. */
  predicate InWindow(r: Record, dates: DateRange)
  {
    dates.start <= r.date <= dates.end
  }

  /** `records.filter(d => d.date >= dates[0] && d.date <= dates[1])`. */
  function Window(records: seq<Record>, dates: DateRange): (r: seq<Record>)
    ensures |r| <= |records|
    ensures forall x :: x in r <==> x in records && InWindow(x, dates)
  {
    if records == [] then []
    else (if InWindow(records[0], dates) then [records[0]] else []) + Window(records[1..], dates)
  }

  /** The filter keeps order: filtering a concatenation concatenates the filtered parts. */
  lemma {:induction false} WindowAppend(a: seq<Record>, b: seq<Record>, dates: DateRange)
    ensures Window(a + b, dates) == Window(a, dates) + Window(b, dates)
  {
    if a == [] {
      assert a + b == b;
    } else {
      assert (a + b)[1..] == a[1..] + b;
      WindowAppend(a[1..], b, dates);
    }
  }

  /** A series lying wholly inside the window is kept as it is. */
  lemma {:induction false} WindowKeepsInside(records: seq<Record>, dates: DateRange)
    requires forall k :: 0 <= k < |records| ==> InWindow(records[k], dates)
    ensures Window(records, dates) == records
  {
    if records != [] {
      WindowKeepsInside(records[1..], dates);
    }
  }

  /** Dates never decrease along the series. */
  predicate SortedByDate(data: seq<Record>)
  {
    forall a, b :: 0 <= a < b < |data| ==> data[a].date <= data[b].date
  }

  /** Filtering a date-ordered series leaves it date-ordered. */
  lemma {:induction false} WindowKeepsSorted(records: seq<Record>, dates: DateRange)
    requires SortedByDate(records)
    ensures SortedByDate(Window(records, dates))
  {
    if records != [] {
      WindowKeepsSorted(records[1..], dates);
      var rest := Window(records[1..], dates);
      forall x | x in rest
        ensures records[0].date <= x.date
      {
        var k :| 0 <= k < |records[1..]| && records[1..][k] == x;
        assert records[k + 1] == x;
      }
    }
  }

  /**
   * The first `forEach` of `updateVis`: one filtered series per selected
   * coin.  `chartData.data[coin]` is `undefined` for a coin the data lacks,
   * and calling `.filter` on it throws.
   */
  method FilterData(coins: seq<Coin>, data: map<Coin, seq<Record>>, dates: DateRange)
    returns (r: Result<map<Coin, seq<Record>>>)
    ensures r.Err? <==> exists q :: 0 <= q < |coins| && coins[q] !in data
    ensures r.Ok? ==> r.value.Keys == set q | 0 <= q < |coins| :: coins[q]
    ensures r.Ok? ==> forall c :: c in r.value ==> c in data && r.value[c] == Window(data[c], dates)
  {
    var filtered: map<Coin, seq<Record>> := map[];
    for n := 0 to |coins|
      invariant forall q :: 0 <= q < n ==> coins[q] in data
      invariant filtered.Keys == set q | 0 <= q < n :: coins[q]
      invariant forall c :: c in filtered ==> c in data && filtered[c] == Window(data[c], dates)
    {
      var coin := coins[n];
      if coin !in data {
        return Err(TypeError);
      }
      filtered := filtered[coin := Window(data[coin], dates)];
      assert (set q | 0 <= q < n + 1 :: coins[q]) == (set q | 0 <= q < n :: coins[q]) + {coin};
    }
    return Ok(filtered);
  }

  /* ---------- x extents (lines 86-98) ---------- */

  /** `d3.min(data, d => d.date)`: `undefined` for an empty series. */
  function MinDate(records: seq<Record>): (r: Option<Millis>)
    ensures r.None? <==> |records| == 0
    ensures r.Some? ==> exists k :: 0 <= k < |records| && records[k].date == r.value
    ensures r.Some? ==> forall k :: 0 <= k < |records| ==> r.value <= records[k].date
  {
    if |records| == 0 then None
    else
      match MinDate(records[1..])
      case None => Some(records[0].date)
      case Some(m) => Some(if records[0].date < m then records[0].date else m)
  }

  /** `d3.max(data, d => d.date)`: `undefined` for an empty series. */
  function MaxDate(records: seq<Record>): (r: Option<Millis>)
    ensures r.None? <==> |records| == 0
    ensures r.Some? ==> exists k :: 0 <= k < |records| && records[k].date == r.value
    ensures r.Some? ==> forall k :: 0 <= k < |records| ==> records[k].date <= r.value
  {
    if |records| == 0 then None
    else
      match MaxDate(records[1..])
      case None => Some(records[0].date)
      case Some(m) => Some(if records[0].date > m then records[0].date else m)
  }

  /** `d3.min(xs)`, which skips `undefined` entries. */
  function Least(xs: seq<Option<Millis>>): (r: Option<Millis>)
    ensures r.None? <==> forall q :: 0 <= q < |xs| ==> xs[q].None?
    ensures r.Some? ==> exists q :: 0 <= q < |xs| && xs[q] == r
    ensures r.Some? ==> forall q :: 0 <= q < |xs| && xs[q].Some? ==> r.value <= xs[q].value
  {
    if |xs| == 0 then None
    else
      match Least(xs[1..])
      case None => xs[0]
      case Some(m) => if xs[0].Some? && xs[0].value < m then xs[0] else Some(m)
  }

  /** `d3.max(xs)`, which skips `undefined` entries. */
  function Greatest(xs: seq<Option<Millis>>): (r: Option<Millis>)
    ensures r.None? <==> forall q :: 0 <= q < |xs| ==> xs[q].None?
    ensures r.Some? ==> exists q :: 0 <= q < |xs| && xs[q] == r
    ensures r.Some? ==> forall q :: 0 <= q < |xs| && xs[q].Some? ==> xs[q].value <= r.value
  {
    if |xs| == 0 then None
    else
      match Greatest(xs[1..])
      case None => xs[0]
      case Some(m) => if xs[0].Some? && xs[0].value > m then xs[0] else Some(m)
  }

  /** Some selected coin has a filtered record at date `t`. */
  ghost predicate DateOccurs(coins: seq<Coin>, filtered: map<Coin, seq<Record>>, t: Millis)
    requires forall q :: 0 <= q < |coins| ==> coins[q] in filtered
  {
    exists q, k :: 0 <= q < |coins| && 0 <= k < |filtered[coins[q]]| && filtered[coins[q]][k].date == t
  }

  /** No selected coin has a filtered record. */
  predicate AllEmpty(coins: seq<Coin>, filtered: map<Coin, seq<Record>>)
    requires forall q :: 0 <= q < |coins| ==> coins[q] in filtered
  {
    forall q :: 0 <= q < |coins| ==> |filtered[coins[q]]| == 0
  }

  /** `t` is at or before every filtered record of every selected coin. */
  predicate AtOrBeforeAll(coins: seq<Coin>, filtered: map<Coin, seq<Record>>, t: Millis)
    requires forall q :: 0 <= q < |coins| ==> coins[q] in filtered
  {
    forall q, k :: 0 <= q < |coins| && 0 <= k < |filtered[coins[q]]| ==> t <= filtered[coins[q]][k].date
  }

  /** `t` is at or after every filtered record of every selected coin. */
  predicate AtOrAfterAll(coins: seq<Coin>, filtered: map<Coin, seq<Record>>, t: Millis)
    requires forall q :: 0 <= q < |coins| ==> coins[q] in filtered
  {
    forall q, k :: 0 <= q < |coins| && 0 <= k < |filtered[coins[q]]| ==> filtered[coins[q]][k].date <= t
  }

  /**
   * The second `forEach` and the two folds: `xMin`/`xMax` are the least and
   * greatest date over the filtered records of all selected coins, and
   * `undefined` when no selected coin has any record in the window.
   */
  method DateExtents(coins: seq<Coin>, filtered: map<Coin, seq<Record>>) returns (xMin: Option<Millis>, xMax: Option<Millis>)
    requires forall q :: 0 <= q < |coins| ==> coins[q] in filtered
    ensures xMin.None? <==> AllEmpty(coins, filtered)
    ensures xMax.None? <==> AllEmpty(coins, filtered)
    ensures xMin.Some? ==> DateOccurs(coins, filtered, xMin.value) && AtOrBeforeAll(coins, filtered, xMin.value)
    ensures xMax.Some? ==> DateOccurs(coins, filtered, xMax.value) && AtOrAfterAll(coins, filtered, xMax.value)
  {
    var xMins: seq<Option<Millis>> := [];
    var xMaxs: seq<Option<Millis>> := [];
    for n := 0 to |coins|
      invariant |xMins| == n && |xMaxs| == n
      invariant forall q :: 0 <= q < n ==> xMins[q] == MinDate(filtered[coins[q]])
      invariant forall q :: 0 <= q < n ==> xMaxs[q] == MaxDate(filtered[coins[q]])
    {
      var data := filtered[coins[n]];
      xMins := xMins + [MinDate(data)];
      xMaxs := xMaxs + [MaxDate(data)];
    }
    xMin := Least(xMins);
    xMax := Greatest(xMaxs);
    LeastOverCoins(coins, filtered, xMins);
    GreatestOverCoins(coins, filtered, xMaxs);
  }

  /** The fold over the per-coin minima is the minimum over all selected records. */
  lemma LeastOverCoins(coins: seq<Coin>, filtered: map<Coin, seq<Record>>, xMins: seq<Option<Millis>>)
    requires forall q :: 0 <= q < |coins| ==> coins[q] in filtered
    requires |xMins| == |coins| && forall q :: 0 <= q < |coins| ==> xMins[q] == MinDate(filtered[coins[q]])
    ensures Least(xMins).None? <==> AllEmpty(coins, filtered)
    ensures Least(xMins).Some? ==> DateOccurs(coins, filtered, Least(xMins).value)
    ensures Least(xMins).Some? ==> AtOrBeforeAll(coins, filtered, Least(xMins).value)
  {
    var m := Least(xMins);
    if m.Some? {
      var q :| 0 <= q < |xMins| && xMins[q] == m;
      var k :| 0 <= k < |filtered[coins[q]]| && filtered[coins[q]][k].date == m.value;
      forall q, k | 0 <= q < |coins| && 0 <= k < |filtered[coins[q]]|
        ensures m.value <= filtered[coins[q]][k].date
      {
        assert xMins[q].Some?;
      }
    }
  }

  /** The fold over the per-coin maxima is the maximum over all selected records. */
  lemma GreatestOverCoins(coins: seq<Coin>, filtered: map<Coin, seq<Record>>, xMaxs: seq<Option<Millis>>)
    requires forall q :: 0 <= q < |coins| ==> coins[q] in filtered
    requires |xMaxs| == |coins| && forall q :: 0 <= q < |coins| ==> xMaxs[q] == MaxDate(filtered[coins[q]])
    ensures Greatest(xMaxs).None? <==> AllEmpty(coins, filtered)
    ensures Greatest(xMaxs).Some? ==> DateOccurs(coins, filtered, Greatest(xMaxs).value)
    ensures Greatest(xMaxs).Some? ==> AtOrAfterAll(coins, filtered, Greatest(xMaxs).value)
  {
    var m := Greatest(xMaxs);
    if m.Some? {
      var q :| 0 <= q < |xMaxs| && xMaxs[q] == m;
      var k :| 0 <= k < |filtered[coins[q]]| && filtered[coins[q]][k].date == m.value;
      forall q, k | 0 <= q < |coins| && 0 <= k < |filtered[coins[q]]|
        ensures filtered[coins[q]][k].date <= m.value
      {
        assert xMaxs[q].Some?;
      }
    }
  }

  /* ---------- hover choice (lines 38-40, 184-200) ---------- */

  /**
   * d3's `bisector(d => d.date).left` on `data[lo..hi)`: halve the range,
   * moving right past every sample dated before `x`.
   */
  function Bisect(data: seq<Record>, x: Millis, lo: nat, hi: nat): (i: nat)
    requires hi <= |data|
    ensures lo <= i && (i == lo || i <= hi)
    ensures lo <= hi ==> i <= hi
    ensures SortedByDate(data) ==> forall k :: lo <= k < i ==> data[k].date < x
    ensures SortedByDate(data) && lo <= hi ==> forall k :: i <= k < hi ==> data[k].date >= x
    decreases hi - lo
  {
    if lo < hi then
      var mid := (lo + hi) / 2;
      if data[mid].date < x then Bisect(data, x, mid + 1, hi) else Bisect(data, x, lo, mid)
    else lo
  }

  /** `vis.bisectDate(data, x0, 1)`: the search starts at index 1. */
  function BisectFrom1(data: seq<Record>, x0: Millis): (i: nat)
    ensures 1 <= i && (i == 1 || i <= |data|)
    ensures SortedByDate(data) ==> forall k :: 1 <= k < i ==> data[k].date < x0
    ensures SortedByDate(data) ==> forall k :: i <= k < |data| ==> data[k].date >= x0
  {
    Bisect(data, x0, 1, |data|)
  }

  /** What `d` is in `mousemove`: the sentinel `0`, or a sample. */
  datatype Focus = Sentinel | Sample(record: Record)

  /** How far a sample lies from the mouse date. */
  function Dist(r: Record, x0: Millis): nat
  {
    if r.date >= x0 then r.date - x0 else x0 - r.date
  }

  /** `x0 - d0.date > d1.date - x0 ? d1 : d0`. */
  function Closer(d0: Record, d1: Record, x0: Millis): (r: Record)
    ensures r == d0 || r == d1
    ensures d0.date <= x0 <= d1.date ==> Dist(r, x0) <= Dist(d0, x0) && Dist(r, x0) <= Dist(d1, x0)
    ensures d0.date <= x0 <= d1.date && Dist(d0, x0) == Dist(d1, x0) ==> r == d0
  {
    if x0 - d0.date > d1.date - x0 then d1 else d0
  }

  /**
   * Line 190-193: `d0 = data[i - 1]`, `d1 = data[i]`, and the closer of the
   * two when both exist, else the sentinel.
   */
  function Nearest(data: seq<Record>, x0: Millis): (f: Focus)
    ensures f.Sample? ==> f.record in data
    ensures |data| < 2 ==> f.Sentinel?
  {
    var i := BisectFrom1(data, x0);
    if i < |data| then Sample(Closer(data[i - 1], data[i], x0)) else Sentinel
  }

  /**
   * On a date-ordered series the sentinel comes exactly when there are
   * fewer than two samples or the mouse is past the last one.
   */
  lemma NearestSentinel(data: seq<Record>, x0: Millis)
    requires SortedByDate(data)
    ensures Nearest(data, x0).Sentinel? <==> |data| < 2 || data[|data| - 1].date < x0
  {
    var i := BisectFrom1(data, x0);
    if |data| >= 2 && data[|data| - 1].date >= x0 {
      assert !(|data| - 1 < i);
    }
  }

  /**
   * On a date-ordered series a chosen sample is a nearest one, and of the
   * nearest samples it has the earliest date: a tie goes to `d0`.
   */
  lemma NearestIsClosestEarliest(data: seq<Record>, x0: Millis)
    requires SortedByDate(data) && Nearest(data, x0).Sample?
    ensures forall k :: 0 <= k < |data| ==> Dist(Nearest(data, x0).record, x0) <= Dist(data[k], x0)
    ensures forall k :: 0 <= k < |data| && Dist(data[k], x0) == Dist(Nearest(data, x0).record, x0) ==>
      Nearest(data, x0).record.date <= data[k].date
  {
    var i := BisectFrom1(data, x0);
    var d0, d1 := data[i - 1], data[i];
    assert d1.date >= x0;
    assert d0.date <= d1.date;
    assert i > 1 ==> d0.date < x0;
    forall k | 0 <= k < |data|
      ensures Dist(Closer(d0, d1, x0), x0) <= Dist(data[k], x0)
      ensures Dist(data[k], x0) == Dist(Closer(d0, d1, x0), x0) ==> Closer(d0, d1, x0).date <= data[k].date
    {
      if k < i - 1 {
        assert data[k].date <= d0.date;
      } else if k > i {
        assert data[k].date >= d1.date;
      }
    }
  }

  /** `d[chartData.yVariable]` on a record: one of its three figures, or `undefined`. */
  function YValue(r: Record, yVariable: string): (v: Option<real>)
    ensures v.Some? <==> yVariable == PriceUsd || yVariable == MarketCap || yVariable == Volume24h
    ensures v.Some? ==> v.value == r.priceUsd || v.value == r.marketCap || v.value == r.vol24h
  {
    if yVariable == PriceUsd then Some(r.priceUsd)
    else if yVariable == MarketCap then Some(r.marketCap)
    else if yVariable == Volume24h then Some(r.vol24h)
    else None
  }

  /**
   * The figure written into coin `c`'s legend label, or `None` when
   * `d[yVariable].toFixed` is called on `undefined`: always so for the
   * sentinel, whose `0[yVariable]` is `undefined`.
   */
  function Label(data: seq<Record>, yVariable: string, x0: Millis): (v: Option<real>)
    ensures v.Some? <==> Nearest(data, x0).Sample? && YValue(Nearest(data, x0).record, yVariable).Some?
    ensures v.Some? ==> exists k :: 0 <= k < |data| && YValue(data[k], yVariable) == v
  {
    match Nearest(data, x0)
    case Sentinel => None
    case Sample(r) => YValue(r, yVariable)
  }

  /**
   * `mousemove` as written: the `forEach` labels coin after coin and stops
   * at the first coin whose label throws, leaving the later labels stale.
   */
  method HoverAsWritten(coins: seq<Coin>, filtered: map<Coin, seq<Record>>, yVariable: string, x0: Millis)
    returns (labels: seq<real>, status: Result<()>)
    requires forall q :: 0 <= q < |coins| ==> coins[q] in filtered
    ensures |labels| <= |coins|
    ensures forall q :: 0 <= q < |labels| ==> Label(filtered[coins[q]], yVariable, x0) == Some(labels[q])
    ensures status.Ok? <==> forall q :: 0 <= q < |coins| ==> Label(filtered[coins[q]], yVariable, x0).Some?
    ensures status.Ok? ==> |labels| == |coins|
    ensures status.Err? ==> |labels| < |coins| && Label(filtered[coins[|labels|]], yVariable, x0).None?
  {
    labels := [];
    for n := 0 to |coins|
      invariant |labels| == n
      invariant forall q :: 0 <= q < n ==> Label(filtered[coins[q]], yVariable, x0) == Some(labels[q])
    {
      var l := Label(filtered[coins[n]], yVariable, x0);
      if l.None? {
        return labels, Err(TypeError);
      }
      labels := labels + [l.value];
    }
    return labels, Ok(());
  }

  /** A window holding one sample has no hover label: `data[1]` is missing. */
  lemma SingleSampleHasNoLabel(r: Record, yVariable: string, x0: Millis)
    ensures Label([r], yVariable, x0).None?
  {
  }

  /**
   * A concrete case: with "bitcoin" holding a single record in the window,
   * hovering throws at "bitcoin" and the label of "ethereum", selected after
   * it, is never written although it has two samples.
   */
  lemma HoverStopsAtShortSeries()
    ensures var filtered := map["bitcoin" := [Record(0, 1.0, 1.0, 1.0)],
                                "ethereum" := [Record(0, 2.0, 2.0, 2.0), Record(10, 3.0, 3.0, 3.0)]];
      Label(filtered["bitcoin"], PriceUsd, 5).None? &&
      Label(filtered["ethereum"], PriceUsd, 5) == Some(2.0)
  {
    var e := [Record(0, 2.0, 2.0, 2.0), Record(10, 3.0, 3.0, 3.0)];
    assert BisectFrom1(e, 5) == 1;
  }

  /**
   * `mousemove` as evidently intended: every coin is visited, and a coin
   * without a sample simply gets no label.
   */
  method Hover(coins: seq<Coin>, filtered: map<Coin, seq<Record>>, yVariable: string, x0: Millis)
    returns (labels: seq<Option<real>>)
    requires forall q :: 0 <= q < |coins| ==> coins[q] in filtered
    ensures |labels| == |coins|
    ensures forall q :: 0 <= q < |coins| ==> labels[q] == Label(filtered[coins[q]], yVariable, x0)
  {
    labels := [];
    for n := 0 to |coins|
      invariant |labels| == n
      invariant forall q :: 0 <= q < n ==> labels[q] == Label(filtered[coins[q]], yVariable, x0)
    {
      labels := labels + [Label(filtered[coins[n]], yVariable, x0)];
    }
  }

  /** Every coin with a sample near the mouse gets its label, whatever the other coins hold. */
  lemma HoverLabelsEveryCoin(coins: seq<Coin>, filtered: map<Coin, seq<Record>>, yVariable: string,
                             x0: Millis, labels: seq<Option<real>>, q: nat)
    requires forall p :: 0 <= p < |coins| ==> coins[p] in filtered
    requires |labels| == |coins| && forall p :: 0 <= p < |coins| ==> labels[p] == Label(filtered[coins[p]], yVariable, x0)
    requires q < |coins| && yVariable in {PriceUsd, MarketCap, Volume24h} && SortedByDate(filtered[coins[q]])
    requires |filtered[coins[q]]| >= 2 && filtered[coins[q]][|filtered[coins[q]]| - 1].date >= x0
    ensures labels[q].Some?
  {
    NearestSentinel(filtered[coins[q]], x0);
  }

  /* ---------- y-axis ticks and label (lines 105-116, 203-205) ---------- */

  /** The suffix rewrite: giga becomes billion, kilo an upper-case K. */
  function Abbreviate(c: char): char
  {
    if c == 'G' then 'B' else if c == 'k' then 'K' else c
  }

  /**
   * `formatAbbreviation` on the string `formatSi(x)` produced: only a
   * trailing "G" or "k" changes; the empty string (`s[-1]` is
   * `undefined`) and every other string come back unchanged.
   */
  function FormatAbbreviation(s: string): (r: string)
    ensures |r| == |s|
    ensures forall q :: 0 <= q < |s| - 1 ==> r[q] == s[q]
    ensures |s| > 0 ==> r[|s| - 1] == Abbreviate(s[|s| - 1])
  {
    if |s| == 0 then s
    else if s[|s| - 1] == 'G' then s[..|s| - 1] + "B"
    else if s[|s| - 1] == 'k' then s[..|s| - 1] + "K"
    else s
  }

  /** Rewriting twice is rewriting once, and no result ends in "G" or "k". */
  lemma FormatAbbreviationIdempotent(s: string)
    ensures FormatAbbreviation(FormatAbbreviation(s)) == FormatAbbreviation(s)
    ensures |s| > 0 ==> FormatAbbreviation(s)[|s| - 1] != 'G' && FormatAbbreviation(s)[|s| - 1] != 'k'
  {
    var r := FormatAbbreviation(s);
    var rr := FormatAbbreviation(r);
    assert |rr| == |r|;
    forall q | 0 <= q < |r|
      ensures rr[q] == r[q]
    {
    }
  }

  /** The y-axis title for the selected variable. */
  function YLabel(yVariable: string): (r: string)
    ensures yVariable == PriceUsd ==> r == "Price (USD)"
    ensures yVariable == MarketCap ==> r == "Market Capitalization (USD)"
    ensures yVariable != PriceUsd && yVariable != MarketCap ==> r == "24 Hour Trading Volume (USD)"
  {
    if yVariable == PriceUsd then "Price (USD)"
    else if yVariable == MarketCap then "Market Capitalization (USD)"
    else "24 Hour Trading Volume (USD)"
  }

  /** The three variables the select offers get three different titles. */
  lemma YLabelTellsVariablesApart(a: string, b: string)
    requires a in {PriceUsd, MarketCap, Volume24h} && b in {PriceUsd, MarketCap, Volume24h}
    requires YLabel(a) == YLabel(b)
    ensures a == b
  {
  }

  /* ---------- legend rows (lines 209-218) ---------- */

  /** A `g.legendRow`: its bound coin and its vertical offset. */
  datatype LegendRow = LegendRow(coin: Coin, offset: int)

  /** The height of a legend swatch. */
  const SwatchHeight: int := 12

  /** The gap between consecutive legend rows. */
  const RowPitch: int := 30

  /**
   * The index join `selectAll('g.legendRow').data(coins)`: rows beyond the
   * new selection are removed, kept rows take their new coin but keep their
   * transform, and entering row `i` is placed at `translate(0, i * 30)`.
   */
  function LegendJoin(rows: seq<LegendRow>, coins: seq<Coin>): (r: seq<LegendRow>)
    ensures |r| == |coins|
    ensures forall i :: 0 <= i < |coins| ==> r[i].coin == coins[i]
    ensures forall i :: 0 <= i < |coins| && i < |rows| ==> r[i].offset == rows[i].offset
    ensures forall i :: |rows| <= i < |coins| ==> r[i].offset == RowPitch * i
  {
    seq(|coins|, i requires 0 <= i < |coins| =>
      LegendRow(coins[i], if i < |rows| then rows[i].offset else RowPitch * i))
  }

  /** The legend after a page's successive coin selections, starting from no rows. */
  function LegendAfter(selections: seq<seq<Coin>>): (r: seq<LegendRow>)
    ensures selections == [] ==> r == []
    ensures selections != [] ==> |r| == |selections[|selections| - 1]|
    ensures selections != [] ==> forall i :: 0 <= i < |r| ==> r[i].coin == selections[|selections| - 1][i]
  {
    if selections == [] then [] else LegendJoin(LegendAfter(selections[..|selections| - 1]), selections[|selections| - 1])
  }

  /** Row `i` sits at `30 * i`. */
  predicate Placed(rows: seq<LegendRow>)
  {
    forall i :: 0 <= i < |rows| ==> rows[i].offset == RowPitch * i
  }

  /**
   * Whatever the history of selections, legend row `i` sits at `30 * i`,
   * so swatches in different rows never overlap.
   */
  lemma {:induction false} LegendRowsStayPlaced(selections: seq<seq<Coin>>)
    ensures Placed(LegendAfter(selections))
    ensures forall i, j :: 0 <= i < j < |LegendAfter(selections)| ==>
      LegendAfter(selections)[i].offset + SwatchHeight < LegendAfter(selections)[j].offset
  {
    if selections != [] {
      LegendRowsStayPlaced(selections[..|selections| - 1]);
    }
  }
}
