/** The scheduled builder (scripts/build_index.py): the index value with its
    hourly placeholder fallback, and one run of `main`, which writes the
    current snapshot, the history and the health record while never replacing
    a good snapshot by an error marker. Files are fields of a `Site`; which
    write fails, if any, is an input. */
module Builder {
  import opened Common
  import opened Aggregation
  import opened History

  /** `sum(ord(c) * (i + 1) for i, c in enumerate(key))`. */
  function KeySum(key: string): nat
  {
    if key == [] then 0
    else KeySum(key[..|key| - 1]) + (key[|key| - 1] as nat) * |key|
  }

  /** The placeholder's hash of the `YYYY-MM-DD-HH` key, in [0, 99]. */
  function HourHash(hourKey: string): (h: nat)
    ensures h < 100
  {
    KeySum(hourKey) % 100
  }

  /** `hv * 0.6 + 20`: a value in [20, 79.4] fixed by the hour key alone, on
      a 0.6 grid. */
  function Placeholder(hourKey: string): (r: real)
    ensures 20.0 <= r <= 79.4
  {
    var h := HourHash(hourKey);
    assert (h as real) * 0.6 <= 99.0 * 0.6;
    (h as real) * 0.6 + 20.0
  }

  /** `compute_index`: the calculator's value clamped to [0, 100], or the
      placeholder when the calculator raised or gave a non-finite value
      (`None`). */
  function ComputeIndex(calculator: Option<real>, hourKey: string): (r: real)
    ensures 0.0 <= r <= 100.0
    ensures calculator.None? ==> r == Placeholder(hourKey) && 20.0 <= r <= 79.4
    ensures calculator.Some? && 0.0 <= calculator.value <= 100.0 ==> r == calculator.value
    ensures calculator.Some? && calculator.value < 0.0 ==> r == 0.0
    ensures calculator.Some? && calculator.value > 100.0 ==> r == 100.0
  {
    match calculator
    case Some(v) => Clamp(0.0, 100.0, v)
    case None => Placeholder(hourKey)
  }

  datatype RunStatus = Ok | Error

  /** `current_index.json` (its always-empty component list and the message
      text are not modelled). */
  datatype Payload = Payload(timestamp: string, indexValue: real, sentiment: string, status: RunStatus)

  /** `health.json` (the message text is not modelled). */
  datatype Health = Health(lastRun: string, historyPoints: nat, currentValue: real, ok: bool)

  /** Which write of a run raises, if any. */
  datatype Failure = NoFailure | CurrentWriteFails | HistoryWriteFails

  function OkPayload(now: string, value: real): (p: Payload)
    ensures p.status == Ok && p.indexValue == value && p.timestamp == now
    ensures p.sentiment == Classify(value).Name()
  {
    Payload(now, value, Classify(value).Name(), Ok)
  }

  /** The marker written when a run fails and no snapshot exists. */
  function ErrorPayload(now: string): (p: Payload)
    ensures p.status == Error && p.indexValue == 0.0 && p.sentiment == "Unknown"
  {
    Payload(now, 0.0, "Unknown", Error)
  }

  /** The snapshot left after a failed run: an existing one is kept,
      otherwise the error marker. */
  function AfterFailure(current: Option<Payload>, now: string): (r: Payload)
    ensures current.Some? ==> r == current.value
    ensures current.None? ==> r == ErrorPayload(now) && r.status == Error
  {
    if current.Some? then current.value else ErrorPayload(now)
  }

  class Site {
    var current: Option<Payload>
    var health: Option<Health>
    const store: HistoryStore

    constructor(current0: Option<Payload>, history0: seq<Point>)
      ensures current == current0 && health.None?
      ensures fresh(store) && store.series == history0
    {
      current := current0;
      health := None;
      store := new HistoryStore(history0);
    }

    /** One run of `main` at time `now`. */
    method Run(now: string, calculator: Option<real>, hourKey: string, failure: Failure) returns (exitCode: int)
      modifies this, store
      ensures var v := ComputeIndex(calculator, hourKey);
              && (failure == NoFailure ==>
                    current == Some(OkPayload(now, v))
                    && store.series == Appended(old(store.series), Point(now, v)))
              && (failure == CurrentWriteFails ==>
                    current == Some(AfterFailure(old(current), now))
                    && store.series == old(store.series))
              && (failure == HistoryWriteFails ==>
                    current == Some(OkPayload(now, v))
                    && store.series == old(store.series))
              && health == Some(Health(now, |store.series|, v, failure == NoFailure))
      ensures exitCode == (if failure == NoFailure then 0 else 1)
      ensures old(current).Some? && old(current).value.status == Ok ==> current.Some? && current.value.status == Ok
    {
      var value := ComputeIndex(calculator, hourKey);
      var ok := false;
      if failure == CurrentWriteFails {
        if current.None? {
          current := Some(ErrorPayload(now));
        }
      } else {
        current := Some(OkPayload(now, value));
        if failure == NoFailure {
          var points := store.AppendHistory(now, value);
          ok := true;
        }
      }
      health := Some(Health(now, |store.series|, value, ok));
      exitCode := if ok then 0 else 1;
    }
  }

  /** A run that fails never turns a good snapshot into an error marker; a
      run without a snapshot leaves one behind. */
  lemma FailureKeepsGoodSnapshot(current: Option<Payload>, now: string)
    ensures current.Some? && current.value.status == Ok ==> AfterFailure(current, now).status == Ok
    ensures current.Some? ==> AfterFailure(current, now) == current.value
  {
  }

  /** KeySum of a key, one character further along. */
  lemma KeySumStep(key: string, i: nat, before: nat)
    requires i < |key| && KeySum(key[..i]) == before
    ensures KeySum(key[..i + 1]) == before + (key[i] as nat) * (i + 1)
  {
    assert key[..i + 1][..i] == key[..i];
  }

  lemma HourKeyPrefixSum()
    ensures KeySum("2025-01-01-0") == 3717
  {
    var k := "2025-01-01-0";
    assert k[..0] == [];
    KeySumStep(k, 0, 0);
    KeySumStep(k, 1, 50);
    KeySumStep(k, 2, 146);
    KeySumStep(k, 3, 296);
    KeySumStep(k, 4, 508);
    KeySumStep(k, 5, 733);
    KeySumStep(k, 6, 1021);
    KeySumStep(k, 7, 1364);
    KeySumStep(k, 8, 1724);
    KeySumStep(k, 9, 2156);
    KeySumStep(k, 10, 2646);
    KeySumStep(k, 11, 3141);
    assert k[..12] == k;
  }

  /** Midnight of 1 January 2025: the hash is 41. */
  lemma PlaceholderAtMidnight()
    ensures Placeholder("2025-01-01-00") == 44.6
  {
    var k := "2025-01-01-00";
    HourKeyPrefixSum();
    assert k[..12] == "2025-01-01-0";
    KeySumStep(k, 12, 3717);
    assert k[..13] == k;
  }

  /** One hour later the hash is 54. */
  lemma PlaceholderAtOne()
    ensures Placeholder("2025-01-01-01") == 52.4
  {
    var k := "2025-01-01-01";
    HourKeyPrefixSum();
    assert k[..12] == "2025-01-01-0";
    KeySumStep(k, 12, 3717);
    assert k[..13] == k;
  }
}
