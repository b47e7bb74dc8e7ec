/** The index itself: the static weight table, the weighted average over the
    components that produced a score, the clamp to [0, 100] and the five-band
    label (`calculate_index` in cloudy_shiny_index.py, `classify_sentiment` in
    scripts/build_index.py). */
module Aggregation {
  import opened Common
  import opened Scoring

  /** The weight table, in the order the calculator walks it. */
  const Components: seq<Component> := [
    Component("SPY", 0.159, false),
    Component("QQQ", 0.159, false),
    Component("000001.SS", 0.205, false),
    Component("^N225", 0.046, false),
    Component("^HSI", 0.004, false),
    Component("XU100.IS", 0.012, false),
    Component("^GDAXI", 0.051, false),
    Component("^FCHI", 0.034, false),
    Component("^VIX", 0.10, true),
    Component("TLT", 0.05, true),
    Component("GLD", 0.06, true),
    Component("DX-Y.NYB", 0.04, false),
    Component(NewsSymbol, 0.08, false)
  ]

  datatype Sentiment = ExtremeShiny | Shiny | Neutral | Cloudy | ExtremeCloudy
  {
    function Name(): string
    {
      match this
      case ExtremeShiny => "Extreme Shiny"
      case Shiny => "Shiny"
      case Neutral => "Neutral"
      case Cloudy => "Cloudy"
      case ExtremeCloudy => "Extreme Cloudy"
    }

    /** Position on the scale, 0 for the most cloudy band. */
    function Rank(): nat
    {
      match this
      case ExtremeCloudy => 0
      case Cloudy => 1
      case Neutral => 2
      case Shiny => 3
      case ExtremeShiny => 4
    }
  }

  datatype IndexResult = IndexResult(
    indexValue: real,
    baseIndex: real,
    sentiment: Sentiment,
    components: seq<ComponentResult>,
    activeComponents: nat,
    totalComponents: nat)

  /** The five bands: [75, oo), [51, 75), [50, 51), [25, 50), (-oo, 25). */
  function Classify(v: real): (s: Sentiment)
    ensures s == ExtremeShiny <==> v >= 75.0
    ensures s == Shiny <==> 51.0 <= v < 75.0
    ensures s == Neutral <==> 50.0 <= v < 51.0
    ensures s == Cloudy <==> 25.0 <= v < 50.0
    ensures s == ExtremeCloudy <==> v < 25.0
  {
    if v >= 75.0 then ExtremeShiny
    else if v >= 51.0 then Shiny
    else if v >= 50.0 then Neutral
    else if v >= 25.0 then Cloudy
    else ExtremeCloudy
  }

  /** A higher value never gets a cloudier label. */
  lemma ClassifyMonotone(v1: real, v2: real)
    requires v1 <= v2
    ensures Classify(v1).Rank() <= Classify(v2).Rank()
  {
  }

  function TotalWeight(cs: seq<Component>): real
  {
    if cs == [] then 0.0 else cs[0].weight + TotalWeight(cs[1..])
  }

  /** The weights of the last seven components: risk, havens, dollar, news
      and the two smallest European markets. */
  lemma TailWeights()
    ensures TotalWeight(Components[6..]) == 0.415
  {
    var t := Components;
    assert TotalWeight(t[12..]) == 0.08;
    assert TotalWeight(t[11..]) == 0.12;
    assert TotalWeight(t[10..]) == 0.18;
    assert TotalWeight(t[9..]) == 0.23;
    assert TotalWeight(t[8..]) == 0.33;
    assert TotalWeight(t[7..]) == 0.364;
  }

  /** The static weights add up to exactly 1. */
  lemma WeightsSumToOne()
    ensures TotalWeight(Components) == 1.0
  {
    var t := Components;
    TailWeights();
    assert TotalWeight(t[5..]) == 0.427;
    assert TotalWeight(t[4..]) == 0.431;
    assert TotalWeight(t[3..]) == 0.477;
    assert TotalWeight(t[2..]) == 0.682;
    assert TotalWeight(t[1..]) == 0.841;
  }

  /** The closes fetched for a symbol, `None` when nothing came back. */
  function Fetched(data: map<string, seq<real>>, symbol: string): Option<seq<real>>
  {
    if symbol in data then Some(data[symbol]) else None
  }

  /** `component_results`, component by component. */
  function Results(cs: seq<Component>, data: map<string, seq<real>>, newsScore: real): (r: seq<ComponentResult>)
    ensures |r| == |cs|
  {
    if cs == [] then []
    else
      var last := cs[|cs| - 1];
      Results(cs[..|cs| - 1], data, newsScore) + [ComponentScore(last, Fetched(data, last.symbol), newsScore)]
  }

  /** Sum of `contribution` over the active results. */
  function ActiveContribution(rs: seq<ComponentResult>): real
  {
    if rs == [] then 0.0
    else
      var last := rs[|rs| - 1];
      ActiveContribution(rs[..|rs| - 1]) + (if last.status == Active then last.contribution else 0.0)
  }

  /** Sum of `weight` over the active results. */
  function ActiveWeight(rs: seq<ComponentResult>): real
  {
    if rs == [] then 0.0
    else
      var last := rs[|rs| - 1];
      ActiveWeight(rs[..|rs| - 1]) + (if last.status == Active then last.weight else 0.0)
  }

  function ActiveCount(rs: seq<ComponentResult>): (n: nat)
    ensures n <= |rs|
  {
    if rs == [] then 0
    else ActiveCount(rs[..|rs| - 1]) + (if rs[|rs| - 1].status == Active then 1 else 0)
  }

  /** The weighted mean over the active results, 50 when their weights add up
      to nothing. */
  function BaseIndex(rs: seq<ComponentResult>): real
  {
    if ActiveWeight(rs) > 0.0 then ActiveContribution(rs) / ActiveWeight(rs) else 50.0
  }

  /** `calculate_index` over the weight table `cs`, the closes that came back
      for each symbol and the news score. */
  method CalculateIndex(cs: seq<Component>, data: map<string, seq<real>>, newsScore: real) returns (r: IndexResult)
    ensures r.components == Results(cs, data, newsScore)
    ensures r.baseIndex == BaseIndex(r.components)
    ensures r.indexValue == Clamp(0.0, 100.0, r.baseIndex)
    ensures 0.0 <= r.indexValue <= 100.0
    ensures r.sentiment == Classify(r.indexValue)
    ensures r.totalComponents == |cs|
    ensures r.activeComponents == ActiveCount(r.components) <= r.totalComponents
  {
    var results: seq<ComponentResult> := [];
    var weighted := 0.0;
    var total := 0.0;
    var active := 0;
    var i := 0;
    while i < |cs|
      invariant 0 <= i <= |cs|
      invariant results == Results(cs[..i], data, newsScore)
      invariant weighted == ActiveContribution(results)
      invariant total == ActiveWeight(results)
      invariant active == ActiveCount(results)
    {
      var c := ComponentScore(cs[i], Fetched(data, cs[i].symbol), newsScore);
      ResultsStep(cs, data, newsScore, i);
      SumsSnoc(results, c);
      results := results + [c];
      if c.status == Active {
        weighted := weighted + c.contribution;
        total := total + c.weight;
        active := active + 1;
      }
      i := i + 1;
    }
    assert cs[..i] == cs;
    var base := if total > 0.0 then weighted / total else 50.0;
    var index := Clamp(0.0, 100.0, base);
    r := IndexResult(index, base, Classify(index), results, active, |cs|);
  }

  lemma ResultsStep(cs: seq<Component>, data: map<string, seq<real>>, newsScore: real, i: nat)
    requires i < |cs|
    ensures Results(cs[..i + 1], data, newsScore)
            == Results(cs[..i], data, newsScore) + [ComponentScore(cs[i], Fetched(data, cs[i].symbol), newsScore)]
  {
    assert cs[..i + 1][..i] == cs[..i];
  }

  lemma SumsSnoc(rs: seq<ComponentResult>, c: ComponentResult)
    ensures ActiveContribution(rs + [c]) == ActiveContribution(rs) + (if c.status == Active then c.contribution else 0.0)
    ensures ActiveWeight(rs + [c]) == ActiveWeight(rs) + (if c.status == Active then c.weight else 0.0)
    ensures ActiveCount(rs + [c]) == ActiveCount(rs) + (if c.status == Active then 1 else 0)
  {
    assert (rs + [c])[..|rs|] == rs;
  }

  /** Result `i` is the score of component `i`. */
  lemma {:induction false} ResultsSpec(cs: seq<Component>, data: map<string, seq<real>>, newsScore: real)
    ensures forall i :: 0 <= i < |cs| ==>
      Results(cs, data, newsScore)[i] == ComponentScore(cs[i], Fetched(data, cs[i].symbol), newsScore)
  {
    if cs != [] {
      ResultsSpec(cs[..|cs| - 1], data, newsScore);
    }
  }

  // ---------------------------------------------------------- properties

  /** A result whose weight is non-negative, whose contribution is weight
      times score and whose score, when active, lies in [lo, hi]. */
  predicate WellFormedResult(c: ComponentResult, lo: real, hi: real)
  {
    c.weight >= 0.0 && c.contribution == c.weight * c.score && (c.status == Active ==> lo <= c.score <= hi)
  }

  predicate AllWellFormed(rs: seq<ComponentResult>, lo: real, hi: real)
  {
    forall i :: 0 <= i < |rs| ==> WellFormedResult(rs[i], lo, hi)
  }

  /** The active contributions lie between lo and hi times the active weight. */
  lemma {:induction false} ContributionWithin(rs: seq<ComponentResult>, lo: real, hi: real)
    requires AllWellFormed(rs, lo, hi)
    ensures lo * ActiveWeight(rs) <= ActiveContribution(rs) <= hi * ActiveWeight(rs)
    ensures ActiveWeight(rs) >= 0.0
  {
    if rs != [] {
      var init, last := rs[..|rs| - 1], rs[|rs| - 1];
      AllWellFormedInit(rs, lo, hi);
      ContributionWithin(init, lo, hi);
      if last.status == Active {
        AddActive(ActiveWeight(init), ActiveContribution(init), last.weight, last.score, lo, hi);
      }
    }
  }

  lemma AllWellFormedInit(rs: seq<ComponentResult>, lo: real, hi: real)
    requires rs != [] && AllWellFormed(rs, lo, hi)
    ensures AllWellFormed(rs[..|rs| - 1], lo, hi) && WellFormedResult(rs[|rs| - 1], lo, hi)
  {
    assert forall i :: 0 <= i < |rs| - 1 ==> rs[..|rs| - 1][i] == rs[i];
  }

  /** Adding one active result of weight w and score x keeps the bound. */
  lemma AddActive(weight: real, contribution: real, w: real, x: real, lo: real, hi: real)
    requires lo * weight <= contribution <= hi * weight
    requires w >= 0.0 && lo <= x <= hi
    ensures lo * (weight + w) <= contribution + w * x <= hi * (weight + w)
  {
    assert lo * w <= w * x <= hi * w;
    assert lo * (weight + w) == lo * weight + lo * w;
    assert hi * (weight + w) == hi * weight + hi * w;
  }

  /** The base index is a convex combination of the active scores: it lies in
      any band around 50 that holds all of them. */
  lemma BaseIndexWithin(rs: seq<ComponentResult>, lo: real, hi: real)
    requires lo <= 50.0 <= hi
    requires AllWellFormed(rs, lo, hi)
    ensures lo <= BaseIndex(rs) <= hi
  {
    ContributionWithin(rs, lo, hi);
    if ActiveWeight(rs) > 0.0 {
      QuotientWithin(ActiveContribution(rs), ActiveWeight(rs), lo, hi);
    }
  }

  /** Results of a table with non-negative weights are well formed for
      [0, 100] when the news score is in [0, 100]. */
  lemma {:induction false} ResultsWellFormed(cs: seq<Component>, data: map<string, seq<real>>, newsScore: real)
    requires forall i :: 0 <= i < |cs| ==> cs[i].weight >= 0.0
    requires 0.0 <= newsScore <= 100.0
    ensures AllWellFormed(Results(cs, data, newsScore), 0.0, 100.0)
  {
    if cs != [] {
      var init := cs[..|cs| - 1];
      ResultsWellFormed(init, data, newsScore);
      var last := cs[|cs| - 1];
      var c := ComponentScore(last, Fetched(data, last.symbol), newsScore);
      ComponentWellFormed(last, Fetched(data, last.symbol), newsScore);
      AllWellFormedSnoc(Results(init, data, newsScore), c, 0.0, 100.0);
    }
  }

  lemma ComponentWellFormed(c: Component, closes: Option<seq<real>>, newsScore: real)
    requires c.weight >= 0.0 && 0.0 <= newsScore <= 100.0
    ensures WellFormedResult(ComponentScore(c, closes, newsScore), 0.0, 100.0)
  {
  }

  lemma AllWellFormedSnoc(rs: seq<ComponentResult>, c: ComponentResult, lo: real, hi: real)
    requires AllWellFormed(rs, lo, hi) && WellFormedResult(c, lo, hi)
    ensures AllWellFormed(rs + [c], lo, hi)
  {
    assert forall i :: 0 <= i < |rs| ==> (rs + [c])[i] == rs[i];
  }

  /** With a news score in [0, 100] the clamp never bites: the published
      index is the weighted mean itself. */
  lemma ClampIsIdentity(cs: seq<Component>, data: map<string, seq<real>>, newsScore: real)
    requires forall i :: 0 <= i < |cs| ==> cs[i].weight >= 0.0
    requires 0.0 <= newsScore <= 100.0
    ensures var b := BaseIndex(Results(cs, data, newsScore));
            0.0 <= b <= 100.0 && Clamp(0.0, 100.0, b) == b
  {
    ResultsWellFormed(cs, data, newsScore);
    BaseIndexWithin(Results(cs, data, newsScore), 0.0, 100.0);
  }

  /** Price components with no data are all inactive. */
  lemma {:induction false} NoDataInactive(cs: seq<Component>, newsScore: real)
    requires forall k :: 0 <= k < |cs| ==> cs[k].symbol != NewsSymbol
    ensures var rs := Results(cs, map[], newsScore);
            ActiveCount(rs) == 0 && ActiveWeight(rs) == 0.0 && ActiveContribution(rs) == 0.0
  {
    if cs != [] {
      NoDataInactive(cs[..|cs| - 1], newsScore);
    }
  }

  /** When every market fetch fails only the news component is active, so the
      index is the news score. */
  lemma NoMarketDataMeansNewsOnly(newsScore: real)
    ensures var rs := Results(Components, map[], newsScore);
            ActiveCount(rs) == 1 && BaseIndex(rs) == newsScore
  {
    var t := Components;
    assert forall k :: 0 <= k < 12 ==> t[..12][k].symbol != NewsSymbol;
    NoDataInactive(t[..12], newsScore);
    assert t[..12] == t[..|t| - 1];
  }
}
