/** The immutable evaluator. */
module Evaluators {
  import opened Wrappers
  import opened Contracts
  import opened Trials

  function SumFps(samples: seq<MetricSample>): real {
    if samples == [] then 0.0 else SumFps(samples[..|samples| - 1]) + samples[|samples| - 1].fps
  }

  function SumErrors(samples: seq<MetricSample>): nat {
    if samples == [] then 0 else SumErrors(samples[..|samples| - 1]) + samples[|samples| - 1].errors
  }

  /** The largest of a running maximum, absent before the first value, and a value. */
  function Higher(highest: Option<real>, value: real): real {
    if highest.Some? && highest.value > value then highest.value else value
  }

  function MaxTemperature(samples: seq<MetricSample>): real
    requires samples != []
  {
    var init, last := samples[..|samples| - 1], samples[|samples| - 1];
    Higher(if init == [] then None else Some(MaxTemperature(init)), last.temperatureC)
  }

  function MaxPower(samples: seq<MetricSample>): real
    requires samples != []
  {
    var init, last := samples[..|samples| - 1], samples[|samples| - 1];
    Higher(if init == [] then None else Some(MaxPower(init)), last.powerW)
  }

  function Saturate(n: nat): U64 {
    if n <= U64_MAX then n else U64_MAX
  }

  /** The aggregate of one measurement set; an empty set reports zero throughout. */
  function Summary(samples: seq<MetricSample>): MetricSummary {
    if samples == [] then MetricSummary(0, 0.0, 0.0, 0.0, 0)
    else MetricSummary(
           |samples|, SumFps(samples) / |samples| as real,
           MaxTemperature(samples), MaxPower(samples), Saturate(SumErrors(samples)))
  }

  /** Folds a measurement set with running accumulators. */
  method Summarize(samples: seq<MetricSample>) returns (summary: MetricSummary)
    ensures summary == Summary(samples)
  {
    if samples == [] {
      return MetricSummary(0, 0.0, 0.0, 0.0, 0);
    }
    var sumFps, divisor := 0.0, 0.0;
    var maxTemperatureC: Option<real>, maxPowerW: Option<real> := None, None;
    var totalErrors: U64 := 0;
    for k := 0 to |samples|
      invariant sumFps == SumFps(samples[..k]) && divisor == k as real
      invariant k == 0 <==> maxTemperatureC.None?
      invariant k == 0 <==> maxPowerW.None?
      invariant k > 0 ==> maxTemperatureC == Some(MaxTemperature(samples[..k]))
      invariant k > 0 ==> maxPowerW == Some(MaxPower(samples[..k]))
      invariant totalErrors == Saturate(SumErrors(samples[..k]))
    {
      var sample := samples[k];
      assert samples[..k + 1][..k] == samples[..k];
      sumFps := sumFps + sample.fps;
      divisor := divisor + 1.0;
      maxTemperatureC := Some(Higher(maxTemperatureC, sample.temperatureC));
      maxPowerW := Some(Higher(maxPowerW, sample.powerW));
      totalErrors := if totalErrors + sample.errors <= U64_MAX then totalErrors + sample.errors else U64_MAX;
    }
    assert samples[..|samples|] == samples;
    summary := MetricSummary(|samples|, sumFps / divisor, maxTemperatureC.value, maxPowerW.value, totalErrors);
  }

  /** The maxima bound every sample and are attained; the error total never passes its width. */
  lemma {:induction false} SummaryMeaning(samples: seq<MetricSample>)
    requires samples != []
    ensures forall k :: 0 <= k < |samples| ==>
                          && samples[k].temperatureC <= Summary(samples).maxTemperatureC
                          && samples[k].powerW <= Summary(samples).maxPowerW
                          && samples[k].errors <= Summary(samples).totalErrors
    ensures exists k :: 0 <= k < |samples| && samples[k].temperatureC == Summary(samples).maxTemperatureC
    ensures exists k :: 0 <= k < |samples| && samples[k].powerW == Summary(samples).maxPowerW
  {
    var init, last := samples[..|samples| - 1], samples[|samples| - 1];
    assert forall k :: 0 <= k < |samples| ==> samples[k] == if k < |init| then init[k] else last;
    if init == [] {
      assert samples[0] == last;
    } else {
      SummaryMeaning(init);
      if last.temperatureC >= MaxTemperature(init) {
        assert samples[|init|].temperatureC == MaxTemperature(samples);
      } else {
        var k :| 0 <= k < |init| && init[k].temperatureC == MaxTemperature(init);
        assert samples[k].temperatureC == MaxTemperature(samples);
      }
      if last.powerW >= MaxPower(init) {
        assert samples[|init|].powerW == MaxPower(samples);
      } else {
        var k :| 0 <= k < |init| && init[k].powerW == MaxPower(init);
        assert samples[k].powerW == MaxPower(samples);
      }
    }
  }

  /** Sums are sums: of one sample its value, of two sets together the sum of both. */
  lemma {:induction false} SumsAdd(first: seq<MetricSample>, second: seq<MetricSample>, sample: MetricSample)
    ensures SumFps([sample]) == sample.fps && SumErrors([sample]) == sample.errors
    ensures SumFps(first + second) == SumFps(first) + SumFps(second)
    ensures SumErrors(first + second) == SumErrors(first) + SumErrors(second)
    decreases |second|
  {
    assert [sample][..0] == [];
    if second == [] {
      assert first + second == first;
    } else {
      var init, last := second[..|second| - 1], second[|second| - 1];
      assert (first + second)[..|first + second| - 1] == first + init;
      SumsAdd(first, init, sample);
    }
  }

  /** The aggregates count the samples, spread their sum evenly and cap their errors; an empty set has none. */
  lemma SummaryAggregates(samples: seq<MetricSample>)
    ensures Summary(samples).samples == |samples|
    ensures Summary(samples).meanFps * |samples| as real == SumFps(samples)
    ensures Summary(samples).totalErrors <= SumErrors(samples)
    ensures Summary(samples).totalErrors == SumErrors(samples)
            || Summary(samples).totalErrors == 0xFFFF_FFFF_FFFF_FFFF
    ensures samples == [] ==> Summary(samples) == MetricSummary(0, 0.0, 0.0, 0.0, 0)
  {
    if samples != [] {
      var n, sum := |samples| as real, SumFps(samples);
      ProductOfQuotient(n, sum);
      assert Summary(samples).meanFps == sum / n;
    }
  }

  lemma ProductOfQuotient(n: real, x: real)
    requires n > 0.0
    ensures x / n * n == x
  {
  }

  /** The fixed, ordered decision rule. */
  function Evaluate(baseline: seq<MetricSample>, candidate: seq<MetricSample>, bounds: DecisionBounds): Verdict {
    var b, c := Summary(baseline), Summary(candidate);
    var gain := c.meanFps - b.meanFps;
    var reason :=
      if b.samples < bounds.minSamples || c.samples < bounds.minSamples then InsufficientSamples
      else if c.maxTemperatureC > bounds.maxTemperatureC then TemperatureExceeded
      else if c.maxPowerW > bounds.maxPowerW then PowerExceeded
      else if c.totalErrors > bounds.maxErrors then ErrorsExceeded
      else if gain >= bounds.minFpsImprovement then Promoted
      else InsufficientImprovement;
    Verdict(if reason == Promoted then Promote else Reject, reason, gain, b, c)
  }

  /** Whether a reason applies to two summaries, taken by itself. */
  predicate Applies(reason: VerdictReason, b: MetricSummary, c: MetricSummary, bounds: DecisionBounds) {
    match reason
    case InsufficientSamples => b.samples < bounds.minSamples || c.samples < bounds.minSamples
    case TemperatureExceeded => c.maxTemperatureC > bounds.maxTemperatureC
    case PowerExceeded => c.maxPowerW > bounds.maxPowerW
    case ErrorsExceeded => c.totalErrors > bounds.maxErrors
    case InsufficientImprovement => c.meanFps - b.meanFps < bounds.minFpsImprovement
    case Promoted => true
  }

  /** The documented order: sample counts, then the safety ceilings, then the improvement. */
  function Rank(reason: VerdictReason): nat {
    match reason
    case InsufficientSamples => 0
    case TemperatureExceeded => 1
    case PowerExceeded => 2
    case ErrorsExceeded => 3
    case InsufficientImprovement => 4
    case Promoted => 5
  }

  /** The verdict's reason is the first in the order that applies, and only `promoted` promotes. */
  lemma FirstReasonDecides(baseline: seq<MetricSample>, candidate: seq<MetricSample>, bounds: DecisionBounds,
                           reason: VerdictReason)
    ensures var v := Evaluate(baseline, candidate, bounds);
            && v.baseline == Summary(baseline) && v.candidate == Summary(candidate)
            && v.fpsImprovement == v.candidate.meanFps - v.baseline.meanFps
            && (v.decision == Promote <==> v.reason == Promoted)
            && (v.reason == reason
                <==> && Applies(reason, v.baseline, v.candidate, bounds)
                     && forall r :: Applies(r, v.baseline, v.candidate, bounds) ==> Rank(reason) <= Rank(r))
  {
    var v := Evaluate(baseline, candidate, bounds);
    assert Applies(v.reason, v.baseline, v.candidate, bounds);
  }

  /** A promotion keeps every candidate sample, not just the aggregates, within the ceilings. */
  lemma {:induction false} PromotionBoundsEverySample(baseline: seq<MetricSample>, candidate: seq<MetricSample>,
                                                     bounds: DecisionBounds)
    requires Evaluate(baseline, candidate, bounds).decision == Promote
    ensures |baseline| >= bounds.minSamples && |candidate| >= bounds.minSamples
    ensures forall k :: 0 <= k < |candidate| ==>
                          && candidate[k].temperatureC <= bounds.maxTemperatureC
                          && candidate[k].powerW <= bounds.maxPowerW
                          && candidate[k].errors <= bounds.maxErrors
    ensures SumFps(candidate) / |candidate| as real >= SumFps(baseline) / |baseline| as real + bounds.minFpsImprovement
  {
    SummaryMeaning(candidate);
  }

  /** A uniform set: the mean and the maxima are the common sample, the errors its multiple. */
  lemma {:induction false} UniformSummary(samples: seq<MetricSample>, sample: MetricSample)
    requires samples != [] && forall k :: 0 <= k < |samples| ==> samples[k] == sample
    ensures SumFps(samples) == |samples| as real * sample.fps
    ensures SumErrors(samples) == |samples| * sample.errors
    ensures Summary(samples).meanFps == sample.fps
    ensures Summary(samples).maxTemperatureC == sample.temperatureC
    ensures Summary(samples).maxPowerW == sample.powerW
    ensures Summary(samples).totalErrors == Saturate(|samples| * sample.errors)
  {
    var init := samples[..|samples| - 1];
    if init != [] {
      UniformSummary(init, sample);
      assert |samples| as real * sample.fps == |init| as real * sample.fps + sample.fps;
      assert |samples| * sample.errors == |init| * sample.errors + sample.errors;
    }
    QuotientOfProduct(|samples| as real, sample.fps);
  }

  lemma QuotientOfProduct(n: real, x: real)
    requires n > 0.0
    ensures n * x / n == x
  {
  }
}
