/** Headline sentiment: a weighted keyword score per headline, optionally
    blended with a transformer classifier's verdict, averaged per source and
    then across sources (cloudy_shiny_index.py, `analyze_news_sentiment` and
    `analyze_reuters_rss`). The classifier is a foreign model: it is an input. */
module Sentiment {
  import opened Common
  import opened Text

  datatype Keyword = Keyword(word: string, weight: nat)

  const PositiveKeywords: seq<Keyword> := [
    Keyword("strong", 3), Keyword("surge", 4), Keyword("soar", 4), Keyword("rally", 3),
    Keyword("boom", 4), Keyword("breakout", 3), Keyword("gain", 2), Keyword("rise", 2),
    Keyword("up", 1), Keyword("bull", 3), Keyword("positive", 2), Keyword("growth", 2),
    Keyword("advance", 2), Keyword("jump", 3), Keyword("climb", 2), Keyword("recovery", 3),
    Keyword("optimism", 3), Keyword("outperform", 3), Keyword("beat", 2), Keyword("exceed", 2),
    Keyword("record", 2), Keyword("high", 1)
  ]

  const NegativeKeywords: seq<Keyword> := [
    Keyword("crash", 5), Keyword("plunge", 4), Keyword("collapse", 5), Keyword("slump", 4),
    Keyword("tumble", 4), Keyword("fall", 2), Keyword("drop", 2), Keyword("down", 1),
    Keyword("bear", 3), Keyword("negative", 2), Keyword("decline", 2), Keyword("weak", 2),
    Keyword("struggle", 3), Keyword("concern", 2), Keyword("fear", 3), Keyword("uncertainty", 3),
    Keyword("risk", 2), Keyword("loss", 2), Keyword("miss", 2), Keyword("disappoint", 3),
    Keyword("warning", 3), Keyword("crisis", 4), Keyword("recession", 4), Keyword("inflation", 2),
    Keyword("sell-off", 4), Keyword("correction", 3), Keyword("volatility", 2), Keyword("pressure", 2),
    Keyword("downturn", 3), Keyword("retreat", 2), Keyword("pullback", 2), Keyword("slide", 2)
  ]

  /** Words that mark a scraped heading as site navigation. */
  const NavWords: seq<string> := ["menu", "nav", "subscribe", "sign in"]

  const MinHeadlineLength: nat := 10
  const ModelInputLimit: nat := 450
  const SampleLength: nat := 140
  const SampleCount: nat := 10
  const MaxNewsSources: nat := 3
  const MaxFeedEntries: nat := 20

  /** What the classifier says about one text. */
  datatype Prediction = Prediction(verdict: string, probability: real)

  /** The loaded classifier; `None` from it stands for an empty answer or an
      exception while classifying. */
  type Analyzer = string -> Option<Prediction>

  datatype NewsSentiment = NewsSentiment(
    score: real,
    strength: real,
    sourcesAnalyzed: nat,
    headlinesAnalyzed: nat,
    impactWeight: real,
    sampleHeadlines: seq<string>)

  datatype FeedEntry = FeedEntry(title: string, summary: string)

  datatype RssSentiment = RssSentiment(score: real, strength: real, headlinesAnalyzed: nat)

  // ---------------------------------------------------------------- keywords

  function TableWeight(kws: seq<Keyword>): nat
  {
    if kws == [] then 0 else kws[0].weight + TableWeight(kws[1..])
  }

  predicate Matches(text: string, k: Keyword)
  {
    k.weight > 0 && Contains(text, k.word)
  }

  /** Sum of the weights of the keywords that occur in `text`. */
  function KeywordTotal(text: string, kws: seq<Keyword>): nat
  {
    if kws == [] then 0
    else (if Contains(text, kws[0].word) then kws[0].weight else 0) + KeywordTotal(text, kws[1..])
  }

  /** A keyword counts once however often it occurs, so the total never
      exceeds the table's weight; it is zero exactly when no keyword of
      positive weight occurs. */
  lemma {:induction false} KeywordTotalSpec(text: string, kws: seq<Keyword>)
    ensures KeywordTotal(text, kws) <= TableWeight(kws)
    ensures KeywordTotal(text, kws) == 0 <==> forall k :: 0 <= k < |kws| ==> !Matches(text, kws[k])
  {
    if kws != [] {
      KeywordTotalSpec(text, kws[1..]);
      assert forall k :: 1 <= k < |kws| ==> kws[k] == kws[1..][k - 1];
    }
  }

  function IntClamp(lo: int, hi: int, x: int): (r: int)
    requires lo <= hi
    ensures lo <= r <= hi
    ensures lo <= x <= hi ==> r == x
  {
    if x < lo then lo else if x > hi then hi else x
  }

  /** Keyword score as `analyze_news_sentiment` writes it: 50 when nothing
      matched, else 50 + 5 * net, capped at 90 above and 10 below. */
  function KeywordSentimentNews(pos: int, neg: int): (r: int)
    ensures 10 <= r <= 90
    ensures pos == neg ==> r == 50
    ensures r == IntClamp(10, 90, 50 + 5 * (pos - neg))
  {
    if pos == 0 && neg == 0 then 50
    else
      var net := pos - neg;
      if net > 0 then (if 50 + net * 5 < 90 then 50 + net * 5 else 90)
      else (if 50 + net * 5 > 10 then 50 + net * 5 else 10)
  }

  /** Keyword score as `analyze_reuters_rss` writes it: net clamped to
      [-8, 8] first, then the score to [10, 90]. Both formulations agree. */
  function KeywordSentimentRss(pos: int, neg: int): (r: int)
    ensures r == KeywordSentimentNews(pos, neg)
  {
    if pos == 0 && neg == 0 then 50
    else
      var net := pos - neg;
      IntClamp(10, 90, 50 + IntClamp(-8, 8, net) * 5)
  }

  /** With no keyword of either table in the text the keyword score is 50. */
  lemma NoKeywordIsNeutral(text: string, pos: seq<Keyword>, neg: seq<Keyword>)
    requires forall k :: 0 <= k < |pos| ==> !Matches(text, pos[k])
    requires forall k :: 0 <= k < |neg| ==> !Matches(text, neg[k])
    ensures KeywordTotal(text, pos) == 0 && KeywordTotal(text, neg) == 0
    ensures KeywordSentimentNews(KeywordTotal(text, pos), KeywordTotal(text, neg)) == 50
  {
    KeywordTotalSpec(text, pos);
    KeywordTotalSpec(text, neg);
  }

  // ---------------------------------------------------------- classifier

  predicate IsNegativeLabel(verdict: string)
  {
    IsPrefix("NEG", Upper(verdict))
  }

  /** `_model_sentiment_score`'s mapping: a negative verdict into the lower
      half, any other verdict into the upper half. */
  function ModelScoreOf(p: Prediction): (r: real)
    ensures 0.0 <= p.probability <= 1.0 && IsNegativeLabel(p.verdict) ==> 0.0 <= r <= 50.0
    ensures 0.0 <= p.probability <= 1.0 && !IsNegativeLabel(p.verdict) ==> 50.0 <= r <= 100.0
  {
    if IsNegativeLabel(p.verdict) then (1.0 - p.probability) * 100.0 * 0.5
    else 50.0 + p.probability * 50.0
  }

  /** A more confident negative verdict scores lower, a more confident
      positive one higher. */
  lemma ModelScoreMonotone(verdict: string, p1: real, p2: real)
    requires p1 <= p2
    ensures IsNegativeLabel(verdict) ==> ModelScoreOf(Prediction(verdict, p2)) <= ModelScoreOf(Prediction(verdict, p1))
    ensures !IsNegativeLabel(verdict) ==> ModelScoreOf(Prediction(verdict, p1)) <= ModelScoreOf(Prediction(verdict, p2))
  {
  }

  /** `_model_sentiment_score`: no score without a classifier or for blank text;
      the classifier sees at most the first 450 characters. */
  function ModelSentimentScore(analyzer: Option<Analyzer>, text: string): (r: Option<real>)
    ensures r.Some? <==>
      analyzer.Some? && Strip(text) != [] && analyzer.value(Take(text, ModelInputLimit)).Some?
    ensures r.Some? ==> r.value == ModelScoreOf(analyzer.value(Take(text, ModelInputLimit)).value)
  {
    if analyzer.None? || Strip(text) == [] then None
    else
      match analyzer.value(Take(text, ModelInputLimit))
      case None => None
      case Some(p) => Some(ModelScoreOf(p))
  }

  /** A classifier whose probabilities lie in [0, 1]. */
  ghost predicate ValidAnalyzer(analyzer: Option<Analyzer>)
  {
    analyzer.Some? ==>
      forall t :: analyzer.value(t).Some? ==> 0.0 <= analyzer.value(t).value.probability <= 1.0
  }

  /** A headline's score: the keyword score alone, or the midpoint of keyword
      and classifier scores when the classifier answered. */
  function HeadlineScore(keyword: int, model: Option<real>): (r: real)
    ensures model.None? ==> r == keyword as real
    ensures model.Some? ==> r - keyword as real == model.value - r
    ensures model.Some? ==> Min(keyword as real, model.value) <= r <= Max(keyword as real, model.value)
  {
    if model.Some? then 0.5 * (keyword as real) + 0.5 * model.value else keyword as real
  }

  // ---------------------------------------------------------- news pages

  /** Heading text as scored: lower-cased and stripped. */
  function NormalizeHeadline(raw: string): string
  {
    Strip(Lower(raw))
  }

  /** Headings shorter than 10 characters or naming navigation are skipped. */
  predicate KeepNewsHeadline(text: string)
  {
    |text| >= MinHeadlineLength && forall k :: 0 <= k < |NavWords| ==> !Contains(text, NavWords[k])
  }

  function NewsHeadlineScore(analyzer: Option<Analyzer>, text: string): real
  {
    HeadlineScore(
      KeywordSentimentNews(KeywordTotal(text, PositiveKeywords), KeywordTotal(text, NegativeKeywords)),
      ModelSentimentScore(analyzer, text))
  }

  /** Keyword-only headline scores lie in [10, 90]; blended ones in [5, 95]. */
  lemma HeadlineScoreWithin(analyzer: Option<Analyzer>, text: string)
    requires ValidAnalyzer(analyzer)
    ensures 5.0 <= NewsHeadlineScore(analyzer, text) <= 95.0
    ensures analyzer.None? ==> 10.0 <= NewsHeadlineScore(analyzer, text) <= 90.0
  {
    var m := ModelSentimentScore(analyzer, text);
    if m.Some? {
      var p := analyzer.value(Take(text, ModelInputLimit)).value;
      assert 0.0 <= p.probability <= 1.0;
      assert 0.0 <= m.value <= 100.0;
    }
  }

  /** The headings of one page that are scored, in order. */
  function KeptHeadlines(raw: seq<string>): (r: seq<string>)
    ensures |r| <= |raw|
  {
    if raw == [] then []
    else
      var t := NormalizeHeadline(raw[|raw| - 1]);
      KeptHeadlines(raw[..|raw| - 1]) + (if KeepNewsHeadline(t) then [t] else [])
  }

  /** A text is kept exactly when it is the normalized form of some raw
      heading and passes the filter. */
  lemma KeptHeadlinesSpec(raw: seq<string>)
    ensures forall t :: t in KeptHeadlines(raw) <==>
      exists j :: 0 <= j < |raw| && t == NormalizeHeadline(raw[j]) && KeepNewsHeadline(t)
  {
    forall t | t in KeptHeadlines(raw)
      ensures exists j :: 0 <= j < |raw| && t == NormalizeHeadline(raw[j]) && KeepNewsHeadline(t)
    {
      var j := KeptHeadlineSource(raw, t);
    }
    forall j | 0 <= j < |raw| && KeepNewsHeadline(NormalizeHeadline(raw[j]))
      ensures NormalizeHeadline(raw[j]) in KeptHeadlines(raw)
    {
      KeptHeadlineKept(raw, j);
    }
  }

  /** Every kept text comes from a raw heading and passes the filter. */
  lemma {:induction false} KeptHeadlineSource(raw: seq<string>, t: string) returns (j: nat)
    requires t in KeptHeadlines(raw)
    ensures j < |raw| && t == NormalizeHeadline(raw[j]) && KeepNewsHeadline(t)
  {
    var init := raw[..|raw| - 1];
    var last := NormalizeHeadline(raw[|raw| - 1]);
    if t in KeptHeadlines(init) {
      j := KeptHeadlineSource(init, t);
      assert raw[j] == init[j];
    } else {
      j := |raw| - 1;
    }
  }

  /** Every raw heading whose normalized form passes the filter is kept. */
  lemma {:induction false} KeptHeadlineKept(raw: seq<string>, j: nat)
    requires j < |raw| && KeepNewsHeadline(NormalizeHeadline(raw[j]))
    ensures NormalizeHeadline(raw[j]) in KeptHeadlines(raw)
  {
    var init := raw[..|raw| - 1];
    if j < |raw| - 1 {
      assert init[j] == raw[j];
      KeptHeadlineKept(init, j);
    }
  }

  /** Filtering respects order: the kept headings of a page followed by more
      headings are those of the page followed by those of the rest. */
  lemma {:induction false} KeptHeadlinesAppend(a: seq<string>, b: seq<string>)
    ensures KeptHeadlines(a + b) == KeptHeadlines(a) + KeptHeadlines(b)
    decreases |b|
  {
    if b != [] {
      var last := b[|b| - 1];
      var t := NormalizeHeadline(last);
      KeptHeadlinesAppend(a, b[..|b| - 1]);
      assert (a + b)[..|a + b| - 1] == a + b[..|b| - 1];
      assert (a + b)[|a + b| - 1] == last;
    } else {
      assert a + b == a;
    }
  }

  function HeadlineScores(analyzer: Option<Analyzer>, texts: seq<string>): (r: seq<real>)
    ensures |r| == |texts|
  {
    if texts == [] then []
    else HeadlineScores(analyzer, texts[..|texts| - 1]) + [NewsHeadlineScore(analyzer, texts[|texts| - 1])]
  }

  /** The kept headings of several pages, page after page. */
  function AllKept(sources: seq<seq<string>>): seq<string>
  {
    if sources == [] then []
    else AllKept(sources[..|sources| - 1]) + KeptHeadlines(sources[|sources| - 1])
  }

  /** One mean per page that had at least one kept heading. */
  function SourceMeans(analyzer: Option<Analyzer>, sources: seq<seq<string>>): (r: seq<real>)
    ensures |r| <= |sources|
  {
    if sources == [] then []
    else
      var scores := HeadlineScores(analyzer, KeptHeadlines(sources[|sources| - 1]));
      SourceMeans(analyzer, sources[..|sources| - 1]) + (if |scores| > 0 then [Mean(scores)] else [])
  }

  function Samples(texts: seq<string>): (r: seq<string>)
    ensures |r| == |texts|
  {
    seq(|texts|, i requires 0 <= i < |texts| => Take(texts[i], SampleLength))
  }

  /** Mean of the page means, pulled 10% toward 50 when at least two pages
      disagree by a standard deviation above 15 (variance above 225). */
  function OverallSentiment(means: seq<real>): (r: real)
    ensures |means| == 0 ==> r == 50.0
    ensures |means| > 0 && (|means| < 2 || Variance(means) <= 225.0) ==> r == Mean(means)
    ensures |means| >= 2 && Variance(means) > 225.0 ==> r - 50.0 == 0.9 * (Mean(means) - 50.0)
  {
    if |means| == 0 then 50.0
    else
      var m := Mean(means);
      if |means| >= 2 && Variance(means) > 225.0 then m * 0.9 + 5.0 else m
  }

  function Strength(score: real): (r: real)
    ensures 0.0 <= r <= 1.0
    ensures Abs(score - 50.0) >= 40.0 ==> r == 1.0
  {
    Min(1.0, Abs(score - 50.0) / 40.0)
  }

  /** Stronger sentiment weighs more: from 0.15 at strength 0 to 0.25 at
      strength 1. */
  function ImpactWeight(strength: real): (w: real)
    ensures 0.0 <= strength <= 1.0 ==> 0.15 <= w <= 0.25
    ensures strength == 0.0 ==> w == 0.15
    ensures strength == 1.0 ==> w == 0.25
  {
    0.15 + strength * 0.10
  }

  /** The per-heading loop of `analyze_news_sentiment` for one page: the
      headings kept and their scores. */
  method ScorePage(headlines: seq<string>, analyzer: Option<Analyzer>) returns (kept: seq<string>, scores: seq<real>)
    ensures kept == KeptHeadlines(headlines)
    ensures scores == HeadlineScores(analyzer, kept)
  {
    kept, scores := [], [];
    var j := 0;
    while j < |headlines|
      invariant 0 <= j <= |headlines|
      invariant kept == KeptHeadlines(headlines[..j])
      invariant scores == HeadlineScores(analyzer, kept)
    {
      var text := NormalizeHeadline(headlines[j]);
      KeptHeadlinesStep(headlines, j);
      if KeepNewsHeadline(text) {
        HeadlineScoresSnoc(analyzer, kept, text);
        kept := kept + [text];
        scores := scores + [NewsHeadlineScore(analyzer, text)];
      }
      j := j + 1;
    }
    assert headlines[..j] == headlines;
  }

  lemma KeptHeadlinesStep(raw: seq<string>, j: nat)
    requires j < |raw|
    ensures var t := NormalizeHeadline(raw[j]);
            KeptHeadlines(raw[..j + 1]) == KeptHeadlines(raw[..j]) + (if KeepNewsHeadline(t) then [t] else [])
  {
    assert raw[..j + 1][..j] == raw[..j];
  }

  lemma HeadlineScoresSnoc(analyzer: Option<Analyzer>, texts: seq<string>, t: string)
    ensures HeadlineScores(analyzer, texts + [t]) == HeadlineScores(analyzer, texts) + [NewsHeadlineScore(analyzer, t)]
  {
    assert (texts + [t])[..|texts|] == texts;
  }

  /** `analyze_news_sentiment` over the fetched pages' raw headings (a page
      that could not be fetched contributes no heading). */
  method AnalyzeNewsSentiment(sources: seq<seq<string>>, analyzer: Option<Analyzer>) returns (r: NewsSentiment)
    ensures var pages := Take(sources, MaxNewsSources);
            && r.score == OverallSentiment(SourceMeans(analyzer, pages))
            && r.sourcesAnalyzed == |SourceMeans(analyzer, pages)| <= MaxNewsSources
            && r.headlinesAnalyzed == |AllKept(pages)|
            && r.sampleHeadlines == Take(Samples(AllKept(pages)), SampleCount)
    ensures r.strength == Strength(r.score) && 0.0 <= r.strength <= 1.0
    ensures r.impactWeight == ImpactWeight(r.strength) && 0.15 <= r.impactWeight <= 0.25
  {
    var pages := Take(sources, MaxNewsSources);
    var means: seq<real> := [];
    var analyzed: seq<string> := [];
    var total: nat := 0;
    var i := 0;
    while i < |pages|
      invariant 0 <= i <= |pages|
      invariant means == SourceMeans(analyzer, pages[..i])
      invariant total == |AllKept(pages[..i])|
      invariant analyzed == Samples(AllKept(pages[..i]))
    {
      var kept, pageScores := ScorePage(pages[i], analyzer);
      PagesStep(analyzer, pages, i);
      SamplesAppend(AllKept(pages[..i]), kept);
      total := total + |kept|;
      analyzed := analyzed + Samples(kept);
      if |pageScores| > 0 {
        means := means + [Mean(pageScores)];
      }
      i := i + 1;
    }
    assert pages[..i] == pages;
    var overall := OverallSentiment(means);
    var strength := Strength(overall);
    r := NewsSentiment(overall, strength, |means|, total, ImpactWeight(strength), Take(analyzed, SampleCount));
  }

  lemma PagesStep(analyzer: Option<Analyzer>, pages: seq<seq<string>>, i: nat)
    requires i < |pages|
    ensures AllKept(pages[..i + 1]) == AllKept(pages[..i]) + KeptHeadlines(pages[i])
    ensures var scores := HeadlineScores(analyzer, KeptHeadlines(pages[i]));
            SourceMeans(analyzer, pages[..i + 1])
            == SourceMeans(analyzer, pages[..i]) + (if |scores| > 0 then [Mean(scores)] else [])
  {
    assert pages[..i + 1][..i] == pages[..i];
  }

  lemma SamplesAppend(a: seq<string>, b: seq<string>)
    ensures Samples(a + b) == Samples(a) + Samples(b)
  {
  }

  // ---------------------------------------------------------- bounds

  lemma {:induction false} HeadlineScoresWithin(analyzer: Option<Analyzer>, texts: seq<string>, lo: real, hi: real)
    requires forall t :: lo <= NewsHeadlineScore(analyzer, t) <= hi
    ensures AllWithin(HeadlineScores(analyzer, texts), lo, hi)
  {
    if texts != [] {
      HeadlineScoresWithin(analyzer, texts[..|texts| - 1], lo, hi);
      AllWithinAppend(HeadlineScores(analyzer, texts[..|texts| - 1]), NewsHeadlineScore(analyzer, texts[|texts| - 1]), lo, hi);
    }
  }

  lemma {:induction false} SourceMeansWithin(analyzer: Option<Analyzer>, sources: seq<seq<string>>, lo: real, hi: real)
    requires forall t :: lo <= NewsHeadlineScore(analyzer, t) <= hi
    ensures AllWithin(SourceMeans(analyzer, sources), lo, hi)
  {
    if sources != [] {
      SourceMeansWithin(analyzer, sources[..|sources| - 1], lo, hi);
      var scores := HeadlineScores(analyzer, KeptHeadlines(sources[|sources| - 1]));
      if |scores| > 0 {
        HeadlineScoresWithin(analyzer, KeptHeadlines(sources[|sources| - 1]), lo, hi);
        MeanWithin(scores, lo, hi);
        AllWithinAppend(SourceMeans(analyzer, sources[..|sources| - 1]), Mean(scores), lo, hi);
      }
    }
  }

  /** Averaging and damping keep the overall score inside any band around 50
      that holds every page mean. */
  lemma OverallWithin(means: seq<real>, lo: real, hi: real)
    requires lo <= 50.0 <= hi && AllWithin(means, lo, hi)
    ensures lo <= OverallSentiment(means) <= hi
  {
    if |means| > 0 {
      MeanWithin(means, lo, hi);
    }
  }

  /** The published news score lies in [10, 90] without a classifier and in
      [5, 95] with one whose probabilities lie in [0, 1]. */
  lemma NewsScoreWithin(analyzer: Option<Analyzer>, sources: seq<seq<string>>)
    requires ValidAnalyzer(analyzer)
    ensures 5.0 <= OverallSentiment(SourceMeans(analyzer, sources)) <= 95.0
    ensures analyzer.None? ==> 10.0 <= OverallSentiment(SourceMeans(analyzer, sources)) <= 90.0
  {
    forall t ensures 5.0 <= NewsHeadlineScore(analyzer, t) <= 95.0 {
      HeadlineScoreWithin(analyzer, t);
    }
    SourceMeansWithin(analyzer, sources, 5.0, 95.0);
    OverallWithin(SourceMeans(analyzer, sources), 5.0, 95.0);
    if analyzer.None? {
      forall t ensures 10.0 <= NewsHeadlineScore(analyzer, t) <= 90.0 {
        HeadlineScoreWithin(analyzer, t);
      }
      SourceMeansWithin(analyzer, sources, 10.0, 90.0);
      OverallWithin(SourceMeans(analyzer, sources), 10.0, 90.0);
    }
  }

  // ---------------------------------------------------------- RSS feed

  /** Title and summary joined, lower-cased and stripped. */
  function EntryText(e: FeedEntry): string
  {
    Strip(Lower(e.title + " " + e.summary))
  }

  function RssHeadlineScore(analyzer: Option<Analyzer>, text: string): real
  {
    HeadlineScore(
      KeywordSentimentRss(KeywordTotal(text, PositiveKeywords), KeywordTotal(text, NegativeKeywords)),
      ModelSentimentScore(analyzer, text))
  }

  /** A feed entry's text scores exactly as the same text on a news page. */
  lemma RssScoreIsNewsScore(analyzer: Option<Analyzer>, text: string)
    ensures RssHeadlineScore(analyzer, text) == NewsHeadlineScore(analyzer, text)
  {
  }

  /** Scores of the feed entries whose text has at least 10 characters. */
  function RssScores(analyzer: Option<Analyzer>, entries: seq<FeedEntry>): (r: seq<real>)
    ensures |r| <= |entries|
  {
    if entries == [] then []
    else
      var t := EntryText(entries[|entries| - 1]);
      RssScores(analyzer, entries[..|entries| - 1])
        + (if |t| >= MinHeadlineLength then [RssHeadlineScore(analyzer, t)] else [])
  }

  /** The per-entry loop of `analyze_reuters_rss`: score every entry whose
      text has at least 10 characters. */
  method ScoreFeedEntries(entries: seq<FeedEntry>, analyzer: Option<Analyzer>) returns (scores: seq<real>)
    ensures scores == RssScores(analyzer, entries)
  {
    scores := [];
    var i := 0;
    while i < |entries|
      invariant 0 <= i <= |entries|
      invariant scores == RssScores(analyzer, entries[..i])
    {
      var text := EntryText(entries[i]);
      RssScoresStep(analyzer, entries, i);
      if |text| >= MinHeadlineLength {
        scores := scores + [RssHeadlineScore(analyzer, text)];
      }
      i := i + 1;
    }
    assert entries[..i] == entries;
  }

  lemma RssScoresStep(analyzer: Option<Analyzer>, entries: seq<FeedEntry>, i: nat)
    requires i < |entries|
    ensures var t := EntryText(entries[i]);
            RssScores(analyzer, entries[..i + 1])
            == RssScores(analyzer, entries[..i]) + (if |t| >= MinHeadlineLength then [RssHeadlineScore(analyzer, t)] else [])
  {
    assert entries[..i + 1][..i] == entries[..i];
  }

  /** `analyze_reuters_rss` over the parsed feed (`None` when parsing raised). */
  method AnalyzeReutersRss(feed: Option<seq<FeedEntry>>, analyzer: Option<Analyzer>) returns (r: RssSentiment)
    ensures feed.None? ==> r == RssSentiment(50.0, 0.0, 0)
    ensures feed.Some? ==>
      var scores := RssScores(analyzer, Take(feed.value, MaxFeedEntries));
      && r.headlinesAnalyzed == |scores|
      && r.score == (if |scores| == 0 then 50.0 else Mean(scores))
      && r.strength == Strength(r.score)
  {
    if feed.None? {
      return RssSentiment(50.0, 0.0, 0);
    }
    var scores := ScoreFeedEntries(Take(feed.value, MaxFeedEntries), analyzer);
    var overall := if |scores| > 0 then Mean(scores) else 50.0;
    r := RssSentiment(overall, Strength(overall), |scores|);
  }

  lemma {:induction false} RssScoresWithin(analyzer: Option<Analyzer>, entries: seq<FeedEntry>)
    requires ValidAnalyzer(analyzer)
    ensures AllWithin(RssScores(analyzer, entries), 5.0, 95.0)
  {
    if entries != [] {
      RssScoresWithin(analyzer, entries[..|entries| - 1]);
      var t := EntryText(entries[|entries| - 1]);
      if |t| >= MinHeadlineLength {
        HeadlineScoreWithin(analyzer, t);
        RssScoreIsNewsScore(analyzer, t);
        AllWithinAppend(RssScores(analyzer, entries[..|entries| - 1]), RssHeadlineScore(analyzer, t), 5.0, 95.0);
      }
    }
  }

  /** The feed's score lies in [5, 95] with a well-behaved classifier. */
  lemma RssScoreWithin(analyzer: Option<Analyzer>, entries: seq<FeedEntry>)
    requires ValidAnalyzer(analyzer)
    ensures var scores := RssScores(analyzer, entries);
            5.0 <= (if |scores| == 0 then 50.0 else Mean(scores)) <= 95.0
  {
    RssScoresWithin(analyzer, entries);
    if |RssScores(analyzer, entries)| > 0 {
      MeanWithin(RssScores(analyzer, entries), 5.0, 95.0);
    }
  }
}
