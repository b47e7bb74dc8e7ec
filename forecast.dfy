/** Autoregressive forecasting of the index (ml_forecast.py): rolling a
    fitted AR(p) model forward, the guards that decide whether a model is
    fitted at all, and the first-step prediction with its confidence band.
    The least-squares fit itself is not modelled: a fitted model is an input,
    constrained by what `fit_ar` guarantees about it. */
module Forecast {
  import opened Common

  datatype ARModel = ARModel(order: nat, coef: seq<real>, intercept: real, sigma: real, rmse: real, r2: real)

  /** One coefficient per lag, at least one lag. */
  predicate WellFormed(m: ARModel)
  {
    m.order >= 1 && |m.coef| == m.order
  }

  /** `np.dot(coef, vals[-p:][::-1])`: coefficient k weighs the value k
      places before the last one. */
  function Dot(coef: seq<real>, vals: seq<real>): real
    requires |coef| <= |vals|
  {
    if coef == [] then 0.0
    else Dot(coef[..|coef| - 1], vals) + coef[|coef| - 1] * vals[|vals| - |coef|]
  }

  /** Only the last `|coef|` values matter to the dot product. */
  lemma {:induction false} DotUsesLastValues(coef: seq<real>, older: seq<real>, vals: seq<real>)
    requires |coef| <= |vals|
    ensures Dot(coef, older + vals) == Dot(coef, vals)
  {
    if coef != [] {
      DotUsesLastValues(coef[..|coef| - 1], older, vals);
      assert (older + vals)[|older + vals| - |coef|] == vals[|vals| - |coef|];
    }
  }

  /** One step of `forecast`: the last value again while fewer than `order`
      values exist, else the clamped AR prediction. */
  function Step(m: ARModel, vals: seq<real>): (y: real)
    requires WellFormed(m) && |vals| > 0
    ensures |vals| < m.order ==> y == vals[|vals| - 1]
    ensures |vals| >= m.order ==> 0.0 <= y <= 100.0
  {
    if |vals| < m.order then vals[|vals| - 1]
    else Clamp(0.0, 100.0, m.intercept + Dot(m.coef, vals))
  }

  /** The first `steps` predictions, each made from the history followed by
      the predictions before it. */
  function Rollout(m: ARModel, history: seq<real>, steps: nat): (out: seq<real>)
    requires WellFormed(m) && (steps == 0 || |history| > 0)
    ensures |out| == steps
  {
    if steps == 0 then []
    else
      var prev := Rollout(m, history, steps - 1);
      prev + [Step(m, history + prev)]
  }

  /** `ARModel.forecast`: the caller's history is copied, never changed. */
  method Forecast(m: ARModel, history: seq<real>, steps: nat) returns (out: seq<real>)
    requires WellFormed(m) && (steps == 0 || |history| > 0)
    ensures out == Rollout(m, history, steps)
    ensures |out| == steps
  {
    var vals := history;
    out := [];
    for i := 0 to steps
      invariant vals == history + out
      invariant out == Rollout(m, history, i)
    {
      var y := if |vals| < m.order then vals[|vals| - 1] else Clamp(0.0, 100.0, m.intercept + Dot(m.coef, vals));
      out := out + [y];
      vals := vals + [y];
    }
  }

  /** From a history in [0, 100] every prediction stays in [0, 100]. */
  lemma {:induction false} RolloutWithin(m: ARModel, history: seq<real>, steps: nat)
    requires WellFormed(m) && |history| > 0 && AllWithin(history, 0.0, 100.0)
    ensures AllWithin(Rollout(m, history, steps), 0.0, 100.0)
  {
    if steps > 0 {
      var prev := Rollout(m, history, steps - 1);
      RolloutWithin(m, history, steps - 1);
      var vals := history + prev;
      assert vals[|vals| - 1] in vals;
      assert AllWithin(vals, 0.0, 100.0);
      AllWithinAppend(prev, Step(m, vals), 0.0, 100.0);
    }
  }

  /** While history and predictions together stay shorter than the order,
      every prediction repeats the last observed value. */
  lemma {:induction false} ShortHistoryRepeatsLast(m: ARModel, history: seq<real>, steps: nat)
    requires WellFormed(m) && |history| > 0 && |history| + steps <= m.order
    ensures forall k :: 0 <= k < steps ==> Rollout(m, history, steps)[k] == history[|history| - 1]
  {
    if steps > 0 {
      ShortHistoryRepeatsLast(m, history, steps - 1);
      var prev := Rollout(m, history, steps - 1);
      var vals := history + prev;
      if prev != [] {
        assert vals[|vals| - 1] == prev[|prev| - 1];
      }
    }
  }

  /** With at least `order` values the first prediction is the clamped
      intercept plus the lags of the last `order` values, most recent first. */
  lemma FirstStepUsesLags(m: ARModel, history: seq<real>)
    requires WellFormed(m) && |history| >= m.order
    ensures var recent := history[|history| - m.order..];
            Rollout(m, history, 1)[0] == Clamp(0.0, 100.0, m.intercept + Dot(m.coef, recent))
  {
    var recent := history[|history| - m.order..];
    assert history + [] == history[..|history| - m.order] + recent;
    DotUsesLastValues(m.coef, history[..|history| - m.order], recent);
  }

  // ---------------------------------------------------------- fitting guards

  /** Fewest points `fit_ar` fits a model to. */
  const MinFitPoints: nat := 8

  /** The default largest order tried. */
  const DefaultMaxOrder: nat := 10

  /** `range(lo, hi + 1)`. */
  function Range(lo: nat, hi: nat): (ps: seq<nat>)
    ensures forall p :: p in ps <==> lo <= p <= hi
    decreases hi + 1 - lo
  {
    if lo > hi then [] else [lo] + Range(lo + 1, hi)
  }

  /** The orders `fit_ar` tries: 2 up to `min(maxOrder, n - 2)`, none below
      8 points. */
  function CandidateOrders(n: nat, maxOrder: nat): (ps: seq<nat>)
    ensures forall p :: p in ps <==> n >= MinFitPoints && 2 <= p <= maxOrder && p <= n - 2
  {
    if n < MinFitPoints then []
    else Range(2, if maxOrder <= n - 2 then maxOrder else n - 2)
  }

  /** What `fit_ar` guarantees of its answer for a series of `n` points: none
      below 8 points, otherwise either none (every candidate singular) or a
      model of a candidate order with a non-negative residual deviation. */
  predicate Admissible(n: nat, maxOrder: nat, fit: Option<ARModel>)
  {
    (n < MinFitPoints ==> fit.None?)
    && (fit.Some? ==>
          fit.value.order in CandidateOrders(n, maxOrder)
          && |fit.value.coef| == fit.value.order
          && fit.value.sigma >= 0.0)
  }

  /** A fitted model is well formed and has fewer lags than the series has
      points, so forecasting from that series never takes the fallback. */
  lemma FittedModelUsesLags(history: seq<real>, maxOrder: nat, fit: Option<ARModel>)
    requires Admissible(|history|, maxOrder, fit) && fit.Some?
    ensures WellFormed(fit.value)
    ensures 2 <= fit.value.order <= |history| - 2
  {
  }

  // ---------------------------------------------------------- advanced forecast

  datatype ForecastResult =
    | Naive(prediction: real)
    | AutoRegressive(order: nat, prediction: real, lower: real, upper: real, rmse: real, r2: real)

  /** Width of the band on each side: 1.96 residual deviations. */
  function Margin(sigma: real): real
  {
    1.96 * sigma
  }

  /** `advanced_forecast` given `fit_ar`'s answer for the same history: the
      last value without a model, else the first AR prediction with its band
      clamped to [0, 100]. */
  function AdvancedForecast(history: seq<real>, steps: nat, fit: Option<ARModel>): (r: ForecastResult)
    requires |history| > 0
    requires Admissible(|history|, DefaultMaxOrder, fit)
    requires fit.Some? ==> steps >= 1
    ensures r.Naive? <==> fit.None?
    ensures fit.None? ==> r == Naive(history[|history| - 1])
    ensures |history| < MinFitPoints ==> r == Naive(history[|history| - 1])
    ensures r.AutoRegressive? ==> 0.0 <= r.lower <= r.prediction <= r.upper <= 100.0
    ensures r.AutoRegressive? ==> r.prediction == Step(fit.value, history)
    ensures r.AutoRegressive? ==> r.order == fit.value.order && r.rmse == fit.value.rmse
  {
    match fit
    case None => Naive(history[|history| - 1])
    case Some(m) =>
      var preds := Rollout(m, history, steps);
      RolloutPrefix(m, history, steps, 1);
      assert history + [] == history;
      var first := preds[0];
      assert first == Rollout(m, history, 1)[0];
      AutoRegressive(m.order, first, Max(0.0, first - Margin(m.sigma)), Min(100.0, first + Margin(m.sigma)), m.rmse, m.r2)
  }

  /** The prediction is the first step of the roll-out, whatever `steps`. */
  lemma {:induction false} RolloutPrefix(m: ARModel, history: seq<real>, steps: nat, k: nat)
    requires WellFormed(m) && |history| > 0 && k <= steps
    ensures Rollout(m, history, steps)[..k] == Rollout(m, history, k)
    decreases steps
  {
    if k < steps {
      RolloutPrefix(m, history, steps - 1, k);
      var prev := Rollout(m, history, steps - 1);
      assert (prev + [Step(m, history + prev)])[..k] == prev[..k];
    }
  }
}
