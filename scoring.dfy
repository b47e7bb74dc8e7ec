/** Per-instrument scoring: where the last close sits relative to its moving
    average, mapped onto 0..100 (cloudy_shiny_index.py). */
module Scoring {
  import opened Common

  /** Deviation from the moving average at which the score saturates (20%). */
  const MaxDeviation: real := 0.20

  /** Longest moving-average window, in rows. */
  const MaWindow: nat := 50

  /** Symbol of the component scored from headlines rather than prices. */
  const NewsSymbol: string := "NEWS_SENTIMENT"

  /** A score together with the signed relative distance it was computed from. */
  datatype Scored = Scored(score: real, diffRatio: real)

  datatype Indicators = Indicators(currentPrice: real, ma50: real)

  datatype Status = Active | NoData

  /** One entry of the weight table. */
  datatype Component = Component(symbol: string, weight: real, inverse: bool)

  datatype ComponentResult = ComponentResult(
    symbol: string,
    score: real,
    weight: real,
    contribution: real,
    status: Status)

  function Normalized(diffRatio: real, maxDev: real): real
    requires maxDev != 0.0
  {
    Clamp(-1.0, 1.0, diffRatio / maxDev)
  }

  /** `distance_based_score`: 50 at the average, rising with the price. */
  function DistanceScore(current: real, ma: real, maxDev: real): (r: Scored)
    requires maxDev != 0.0
    ensures 0.0 <= r.score <= 100.0
    ensures ma == 0.0 ==> r == Scored(50.0, 0.0)
    ensures ma != 0.0 ==> r.diffRatio == (current - ma) / ma
  {
    if ma == 0.0 then Scored(50.0, 0.0)
    else
      var diff := (current - ma) / ma;
      Scored(50.0 + Normalized(diff, maxDev) * 50.0, diff)
  }

  /** `distance_based_score_reversed`: 50 at the average, falling with the price. */
  function DistanceScoreReversed(current: real, ma: real, maxDev: real): (r: Scored)
    requires maxDev != 0.0
    ensures 0.0 <= r.score <= 100.0
    ensures ma == 0.0 ==> r == Scored(50.0, 0.0)
  {
    if ma == 0.0 then Scored(50.0, 0.0)
    else
      var diff := (ma - current) / ma;
      Scored(50.0 + Normalized(diff, maxDev) * 50.0, -diff)
  }

  /** The docstring's examples: 50 at the average, 75 at +10%, 25 at -10%. */
  lemma DistanceScoreAnchors(ma: real)
    requires ma != 0.0
    ensures DistanceScore(ma, ma, MaxDeviation).score == 50.0
    ensures DistanceScore(1.1 * ma, ma, MaxDeviation).score == 75.0
    ensures DistanceScore(0.9 * ma, ma, MaxDeviation).score == 25.0
  {
    assert (1.1 * ma - ma) / ma == 0.1 by {
      assert 1.1 * ma - ma == 0.1 * ma;
    }
    assert (0.9 * ma - ma) / ma == -0.1 by {
      assert 0.9 * ma - ma == -0.1 * ma;
    }
  }

  /** At or beyond +/-20% from a positive average the score saturates at 100 / 0. */
  lemma DistanceScoreSaturates(current: real, ma: real)
    requires ma > 0.0
    ensures current >= 1.2 * ma ==> DistanceScore(current, ma, MaxDeviation).score == 100.0
    ensures current <= 0.8 * ma ==> DistanceScore(current, ma, MaxDeviation).score == 0.0
  {
    var diff := (current - ma) / ma;
    if current >= 1.2 * ma {
      assert current - ma >= 0.2 * ma;
      assert diff >= 0.2;
    }
    if current <= 0.8 * ma {
      assert current - ma <= -0.2 * ma;
      assert diff <= -0.2;
    }
  }

  /** Over a positive average the score never decreases as the price rises. */
  lemma DistanceScoreMonotone(c1: real, c2: real, ma: real, maxDev: real)
    requires ma > 0.0 && maxDev > 0.0 && c1 <= c2
    ensures DistanceScore(c1, ma, maxDev).score <= DistanceScore(c2, ma, maxDev).score
  {
    var d1, d2 := (c1 - ma) / ma, (c2 - ma) / ma;
    assert d1 <= d2 by {
      assert c1 - ma <= c2 - ma;
    }
    assert d1 / maxDev <= d2 / maxDev;
  }

  /** The reversed score mirrors the standard one around 50 and reports the
      same signed distance. */
  lemma ReversedIsComplement(current: real, ma: real, maxDev: real)
    requires maxDev != 0.0
    ensures DistanceScoreReversed(current, ma, maxDev).score
            == 100.0 - DistanceScore(current, ma, maxDev).score
    ensures DistanceScoreReversed(current, ma, maxDev).diffRatio
            == DistanceScore(current, ma, maxDev).diffRatio
  {
    if ma != 0.0 {
      var d := (current - ma) / ma;
      assert (ma - current) / ma == -d;
      assert (-d) / maxDev == -(d / maxDev);
      assert Normalized(-d, maxDev) == -Normalized(d, maxDev);
    }
  }

  /** Number of rows the moving average spans: `min(50, len(data))`. */
  function Window(n: nat): (w: nat)
    ensures w <= n && w <= MaWindow
    ensures n > 0 ==> w > 0
  {
    if n < MaWindow then n else MaWindow
  }

  /** `calculate_technical_indicators`: last close and the mean of the last
      `min(50, n)` closes; no indicators for fewer than two rows. */
  function TechnicalIndicators(closes: seq<real>): (r: Option<Indicators>)
    ensures r.None? <==> |closes| < 2
    ensures r.Some? ==> r.value.currentPrice == closes[|closes| - 1]
    ensures r.Some? ==> r.value.ma50 == Mean(closes[|closes| - Window(|closes|)..])
  {
    if |closes| < 2 then None
    else
      var w := Window(|closes|);
      Some(Indicators(closes[|closes| - 1], Mean(closes[|closes| - w..])))
  }

  /** The moving average stays within any band containing every close. */
  lemma MovingAverageWithin(closes: seq<real>, lo: real, hi: real)
    requires |closes| >= 2 && AllWithin(closes, lo, hi)
    ensures TechnicalIndicators(closes).Some?
    ensures lo <= TechnicalIndicators(closes).value.ma50 <= hi
    ensures lo <= TechnicalIndicators(closes).value.currentPrice <= hi
  {
    var tail := closes[|closes| - Window(|closes|)..];
    assert AllWithin(tail, lo, hi) by {
      forall i | 0 <= i < |tail| ensures lo <= tail[i] <= hi {
        assert tail[i] == closes[|closes| - Window(|closes|) + i];
      }
    }
    MeanWithin(tail, lo, hi);
  }

  /** The score of one instrument with indicators: a distance score (reversed
      for inverse instruments) when price and average are both non-zero,
      otherwise 50; clamped to [0, 100]. */
  function InstrumentScore(ind: Indicators, inverse: bool): (r: real)
    ensures 0.0 <= r <= 100.0
    ensures ind.currentPrice == 0.0 || ind.ma50 == 0.0 ==> r == 50.0
  {
    var s :=
      if ind.currentPrice != 0.0 && ind.ma50 != 0.0 then
        if inverse then DistanceScoreReversed(ind.currentPrice, ind.ma50, MaxDeviation).score
        else DistanceScore(ind.currentPrice, ind.ma50, MaxDeviation).score
      else 50.0;
    Clamp(0.0, 100.0, s)
  }

  /** `calculate_component_score`, with the price history (None when the fetch
      failed) and the news score given as inputs. */
  function ComponentScore(c: Component, closes: Option<seq<real>>, newsScore: real): (r: ComponentResult)
    ensures r.symbol == c.symbol && r.weight == c.weight
    ensures r.contribution == c.weight * r.score
    ensures c.symbol == NewsSymbol ==> r.status == Active && r.score == newsScore
    ensures c.symbol != NewsSymbol ==> 0.0 <= r.score <= 100.0
    ensures c.symbol != NewsSymbol ==> (r.status == NoData <==> closes.None? || |closes.value| < 2)
    ensures r.status == NoData ==> r.score == 50.0
  {
    if c.symbol == NewsSymbol then
      ComponentResult(c.symbol, newsScore, c.weight, c.weight * newsScore, Active)
    else if closes.None? then
      ComponentResult(c.symbol, 50.0, c.weight, c.weight * 50.0, NoData)
    else
      match TechnicalIndicators(closes.value)
      case None => ComponentResult(c.symbol, 50.0, c.weight, c.weight * 50.0, NoData)
      case Some(ind) =>
        var s := InstrumentScore(ind, c.inverse);
        ComponentResult(c.symbol, s, c.weight, c.weight * s, Active)
  }

  /** Flipping the inverse flag of a price component mirrors its score around
      50, whatever the data (including the fallbacks to 50). */
  lemma InverseFlagMirrorsScore(symbol: string, weight: real, closes: Option<seq<real>>, newsScore: real)
    requires symbol != NewsSymbol
    ensures ComponentScore(Component(symbol, weight, true), closes, newsScore).score
            == 100.0 - ComponentScore(Component(symbol, weight, false), closes, newsScore).score
  {
    if closes.Some? && |closes.value| >= 2 {
      var ind := TechnicalIndicators(closes.value).value;
      if ind.currentPrice != 0.0 && ind.ma50 != 0.0 {
        ReversedIsComplement(ind.currentPrice, ind.ma50, MaxDeviation);
      }
    }
  }

  /** With at least two strictly positive closes the component is active and
      its score is the distance formula the inverse flag selects. */
  lemma PositivePricesUseDistanceFormula(c: Component, closes: seq<real>, lo: real, hi: real, newsScore: real)
    requires c.symbol != NewsSymbol
    requires |closes| >= 2 && 0.0 < lo && AllWithin(closes, lo, hi)
    ensures var r := ComponentScore(c, Some(closes), newsScore);
            var ind := TechnicalIndicators(closes).value;
            r.status == Active &&
            r.score == (if c.inverse then DistanceScoreReversed(ind.currentPrice, ind.ma50, MaxDeviation).score
                        else DistanceScore(ind.currentPrice, ind.ma50, MaxDeviation).score)
  {
    MovingAverageWithin(closes, lo, hi);
  }

  /** A price series that never moves scores exactly 50, inverse or not. */
  lemma FlatSeriesIsNeutral(c: Component, closes: seq<real>, x: real, newsScore: real)
    requires c.symbol != NewsSymbol
    requires |closes| >= 2 && AllWithin(closes, x, x)
    ensures ComponentScore(c, Some(closes), newsScore).status == Active
    ensures ComponentScore(c, Some(closes), newsScore).score == 50.0
  {
    MovingAverageWithin(closes, x, x);
    var ind := TechnicalIndicators(closes).value;
    assert ind.currentPrice == x && ind.ma50 == x;
    if x != 0.0 {
      DistanceScoreAnchors(x);
      ReversedIsComplement(x, x, MaxDeviation);
    }
  }
}
