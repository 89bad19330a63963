/** The token chart: a synthetic 24-point price series around the current
    price, regenerated whenever the price changes, the 24h high/low figures,
    and the sign rule of the change label and the line colour.

    `Math.random()` and `new Date()` are host calls: the draws and the current
    time (in milliseconds) are parameters. Prices are reals; the floating-point
    rounding of the host is not modelled. */
module TokenChart {
  import opened Common
  import TokenCard

  /** One point of the series. `time` is the instant in milliseconds; the
      host's `toLocaleTimeString` label for it is not modelled. */
  datatype ChartPoint = ChartPoint(time: int, price: real)

  const SeriesLength: nat := 24

  /** `60 * 60 * 1000`: one hour in milliseconds. */
  const HourMs: int := 3600000

  /** The relative perturbation for a draw `u`: `(u - 0.5) * 0.1`. */
  function Perturbation(u: real): (c: real)
    ensures 0.0 <= u < 1.0 ==> -0.05 <= c < 0.05
  {
    (u - 0.5) * 0.1
  }

  /** The closed form of point `k` (oldest first): `23 - k` hours before `now`,
      priced with the `k`-th draw. */
  function ExpectedPoint(base: real, now: int, draws: seq<real>, k: nat): ChartPoint
    requires k < |draws|
  {
    ChartPoint(now - (SeriesLength - 1 - k) * HourMs, base * (1.0 + Perturbation(draws[k])))
  }

  /** The generator's loop `for (i = 23; i >= 0; i--)`, one iteration per call:
      `data` holds the points pushed so far and the next draw is consumed for
      the point `i` hours before `now`. */
  function GenerateFrom(base: real, now: int, draws: seq<real>, i: int, data: seq<ChartPoint>): (r: seq<ChartPoint>)
    requires |draws| == SeriesLength
    requires -1 <= i < SeriesLength as int && |data| == SeriesLength - 1 - i
    ensures |r| == SeriesLength
    ensures r[..|data|] == data
    ensures forall k :: |data| <= k < SeriesLength ==> r[k] == ExpectedPoint(base, now, draws, k)
    decreases i + 1
  {
    if i < 0 then data
    else
      var point := ChartPoint(now - i * HourMs, base * (1.0 + Perturbation(draws[|data|])));
      GenerateFrom(base, now, draws, i - 1, data + [point])
  }

  /** `generateChartData`: 24 points, oldest first, one hour apart, ending at
      `now`, the `k`-th priced with the `k`-th draw. */
  function GenerateChartData(base: real, now: int, draws: seq<real>): (data: seq<ChartPoint>)
    requires |draws| == SeriesLength
    ensures |data| == SeriesLength
    ensures forall k :: 0 <= k < SeriesLength ==> data[k] == ExpectedPoint(base, now, draws, k)
    ensures data[SeriesLength - 1].time == now
    ensures forall j, k :: 0 <= j < k < SeriesLength ==> data[j].time < data[k].time
  {
    GenerateFrom(base, now, draws, SeriesLength - 1, [])
  }

  /** The displayed 24h high: five percent above a positive price. */
  function High(price: real): (h: real)
    ensures price >= 0.0 ==> price <= h
    ensures price >= 0.0 ==> h - price == price / 20.0
    ensures price > 0.0 ==> price < h
  {
    price * 1.05
  }

  /** The displayed 24h low: five percent below a positive price. */
  function Low(price: real): (l: real)
    ensures price >= 0.0 ==> 0.0 <= l <= price
    ensures price >= 0.0 ==> price - l == price / 20.0
    ensures price > 0.0 ==> l < price
  {
    price * 0.95
  }

  predicate ValidDraws(draws: seq<real>) {
    forall k :: 0 <= k < |draws| ==> 0.0 <= draws[k] < 1.0
  }

  /** A single perturbed price stays between the displayed low and high. */
  lemma PerturbedPriceInBand(base: real, u: real)
    requires 0.0 <= u < 1.0 && base >= 0.0
    ensures Low(base) <= base * (1.0 + Perturbation(u)) <= High(base)
    ensures base > 0.0 ==> base * (1.0 + Perturbation(u)) < High(base)
  {
    var c := Perturbation(u);
    assert base * (1.0 + c) == base + base * c;
    assert base * c >= base * -0.05 by { MulMonotone(base, -0.05, c); }
    assert base * c <= base * 0.05 by { MulMonotone(base, c, 0.05); }
    assert High(base) == base + base * 0.05 && Low(base) == base + base * -0.05;
    if base > 0.0 {
      MulStrict(base, c, 0.05);
    }
  }

  lemma MulMonotone(a: real, x: real, y: real)
    requires a >= 0.0 && x <= y
    ensures a * x <= a * y
  {
  }

  lemma MulStrict(a: real, x: real, y: real)
    requires a > 0.0 && x < y
    ensures a * x < a * y
  {
    assert a * y - a * x == a * (y - x);
  }

  /** With draws in `[0, 1)` and a non-negative price, every point of the
      series lies within five percent of the price, below the displayed high
      when the price is positive. */
  lemma SeriesWithinBand(base: real, now: int, draws: seq<real>)
    requires |draws| == SeriesLength && ValidDraws(draws) && base >= 0.0
    ensures forall k :: 0 <= k < SeriesLength ==>
      Low(base) <= GenerateChartData(base, now, draws)[k].price <= High(base)
    ensures base > 0.0 ==> forall k :: 0 <= k < SeriesLength ==>
      GenerateChartData(base, now, draws)[k].price < High(base)
  {
    var data := GenerateChartData(base, now, draws);
    forall k | 0 <= k < SeriesLength
      ensures Low(base) <= data[k].price <= High(base)
      ensures base > 0.0 ==> data[k].price < High(base)
    {
      PerturbedPriceInBand(base, draws[k]);
    }
  }

  /** High is at least Low exactly for non-negative prices. */
  lemma HighLowOrder(price: real)
    ensures High(price) >= Low(price) <==> price >= 0.0
  {
  }

  // ---------------------------------------------------------------------------
  // Regeneration keyed on the price

  /** The component's chart state and the price its effect last ran for
      (`None` before the first run). */
  datatype Chart = Chart(data: seq<ChartPoint>, renderedFor: Option<real>)

  const InitialChart: Chart := Chart([], None)

  /** The host's inputs to one render: the token's price and, should the effect
      run, the clock reading and the 24 draws it would take. */
  datatype Frame = Frame(price: real, now: int, draws: seq<real>)

  /** The clock and draws a render can see: 24 draws of `Math.random()`, each in `[0, 1)`. */
  predicate WellFormedFrame(f: Frame) {
    |f.draws| == SeriesLength && ValidDraws(f.draws)
  }

  /** One render: the effect runs when the dependency `token.price` differs
      from the previous run, and then replaces the series outright. */
  function AfterRender(c: Chart, f: Frame): (c': Chart)
    requires WellFormedFrame(f)
    ensures c'.renderedFor == Some(f.price)
    ensures c.renderedFor == Some(f.price) ==> c' == c
    ensures c.renderedFor != Some(f.price) ==> c'.data == GenerateChartData(f.price, f.now, f.draws)
  {
    if c.renderedFor == Some(f.price) then c
    else Chart(GenerateChartData(f.price, f.now, f.draws), Some(f.price))
  }

  function Renders(c: Chart, frames: seq<Frame>): (c': Chart)
    requires forall i :: 0 <= i < |frames| ==> WellFormedFrame(frames[i])
    ensures frames == [] ==> c' == c
    ensures frames != [] ==> c'.renderedFor == Some(frames[|frames| - 1].price)
    decreases |frames|
  {
    if frames == [] then c else Renders(AfterRender(c, frames[0]), frames[1..])
  }

  /** A render at an unchanged price keeps the series; at a new price the new
      series does not depend on the old one at all. */
  lemma RegenerationRules(c1: Chart, c2: Chart, f: Frame)
    requires WellFormedFrame(f)
    ensures c1.renderedFor == Some(f.price) ==> AfterRender(c1, f) == c1
    ensures c1.renderedFor != Some(f.price) && c2.renderedFor != Some(f.price) ==>
      AfterRender(c1, f) == AfterRender(c2, f)
    ensures |AfterRender(c1, f).data| == SeriesLength || AfterRender(c1, f) == c1
    ensures c1.renderedFor != Some(f.price) ==> AfterRender(c1, f).data == GenerateChartData(f.price, f.now, f.draws)
  {
  }

  /** The chart holds a series generated around the price it was rendered for,
      at some clock reading and with some 24 draws. */
  ghost predicate GeneratedFor(c: Chart) {
    && c.renderedFor.Some?
    && exists now: int, draws: seq<real> :: |draws| == SeriesLength && ValidDraws(draws)
         && c.data == GenerateChartData(c.renderedFor.value, now, draws)
  }

  /** After any non-empty sequence of renders from the initial state, the chart
      holds exactly 24 points, generated around the latest price. */
  lemma {:induction false} RendersKeepFullSeries(c: Chart, frames: seq<Frame>)
    requires forall i :: 0 <= i < |frames| ==> WellFormedFrame(frames[i])
    requires c == InitialChart || GeneratedFor(c)
    requires frames != [] || c != InitialChart
    ensures GeneratedFor(Renders(c, frames))
    ensures |Renders(c, frames).data| == SeriesLength
    ensures frames != [] ==> Renders(c, frames).renderedFor == Some(frames[|frames| - 1].price)
    decreases |frames|
  {
    if frames == [] {
      assert GeneratedFor(c);
    } else {
      var f := frames[0];
      var c' := AfterRender(c, f);
      if c.renderedFor == Some(f.price) {
        assert c' == c;
      } else {
        assert c'.data == GenerateChartData(f.price, f.now, f.draws);
      }
      assert GeneratedFor(c');
      RendersKeepFullSeries(c', frames[1..]);
    }
    var r := Renders(c, frames);
    var now: int, draws: seq<real> :| |draws| == SeriesLength && ValidDraws(draws)
      && r.data == GenerateChartData(r.renderedFor.value, now, draws);
  }

  /** After any non-empty sequence of renders from the initial state at a
      non-negative latest price, every plotted price lies between the displayed
      24h low and high of that price. */
  lemma RenderedPricesWithinBand(frames: seq<Frame>)
    requires forall i :: 0 <= i < |frames| ==> WellFormedFrame(frames[i])
    requires frames != [] && frames[|frames| - 1].price >= 0.0
    ensures forall k :: 0 <= k < |Renders(InitialChart, frames).data| ==>
      Low(frames[|frames| - 1].price) <= Renders(InitialChart, frames).data[k].price <= High(frames[|frames| - 1].price)
  {
    var r := Renders(InitialChart, frames);
    RendersKeepFullSeries(InitialChart, frames);
    var p := frames[|frames| - 1].price;
    var now: int, draws: seq<real> :| |draws| == SeriesLength && ValidDraws(draws)
      && r.data == GenerateChartData(p, now, draws);
    SeriesWithinBand(p, now, draws);
  }

  // ---------------------------------------------------------------------------
  // Header sign rule

  /** The change label's prefix and colour class and the line's stroke colour. */
  datatype Trend = Trend(prefix: string, textClass: string, stroke: string)

  function ChartTrend(change: real): (t: Trend)
    ensures t.prefix == "+" <==> NonNegative(change)
    ensures t.textClass == "text-green-500" <==> NonNegative(change)
    ensures t.stroke == "#10b981" <==> NonNegative(change)
    ensures !NonNegative(change) ==> t == Trend("", "text-red-500", "#ef4444")
  {
    Trend(
      if change >= 0.0 then "+" else "",
      if change >= 0.0 then "text-green-500" else "text-red-500",
      if change >= 0.0 then "#10b981" else "#ef4444")
  }

  /** The chart header and the token card decide the sign of the same change
      the same way: the same prefix, and green in one exactly when green in the other. */
  lemma CardAndChartAgreeOnSign(change: real)
    ensures ChartTrend(change).prefix == TokenCard.FormatChange(change).prefix
    ensures ChartTrend(change).stroke == "#10b981" <==> TokenCard.FormatChange(change).tone == Gain
  {
  }
}
