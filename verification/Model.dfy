/** The deterministic measurement model. */
module Models {
  import opened Contracts
  import opened Trials

  const MODELED_CAPABILITY_ID: string := "mock.value"
  const COLD_FPS: real := 60.0
  const BASE_FPS: real := 60.0
  const FPS_GAIN_PER_UNIT: real := 1.0
  const BASE_TEMPERATURE_C: real := 50.0
  const TEMPERATURE_C_PER_UNIT: real := 0.5
  const BASE_POWER_W: real := 100.0
  const POWER_W_PER_UNIT: real := 1.0
  const ERROR_ONSET: nat := 90

  function KnobToSetting(value: U64): real {
    if value <= U32_MAX then value as real else U32_MAX as real
  }

  function SampleAt(setting: real, value: U64, warming: bool): MetricSample {
    MetricSample(
      if warming then COLD_FPS else BASE_FPS + FPS_GAIN_PER_UNIT * setting,
      BASE_TEMPERATURE_C + TEMPERATURE_C_PER_UNIT * setting,
      BASE_POWER_W + POWER_W_PER_UNIT * setting,
      if value > ERROR_ONSET then value - ERROR_ONSET else 0)
  }

  /** The samples from `index` on, the warm-up prefix dropped as it is produced. */
  function MeasureFrom(value: U64, warmup: nat, total: nat, index: nat): seq<MetricSample>
    requires index <= total
    decreases total - index
  {
    if index == total then []
    else
      var sample := SampleAt(KnobToSetting(value), value, index < warmup);
      (if index >= warmup then [sample] else []) + MeasureFrom(value, warmup, total, index + 1)
  }

  function Measure(value: U64, warmup: U32, counted: U32): seq<MetricSample> {
    MeasureFrom(value, warmup, warmup + counted, 0)
  }

  function Steady(value: U64): MetricSample {
    SampleAt(KnobToSetting(value), value, false)
  }

  lemma {:induction false} MeasureFromIsSteady(value: U64, warmup: nat, total: nat, index: nat)
    requires index <= total && warmup <= total
    ensures var samples := MeasureFrom(value, warmup, total, index);
            && |samples| == total - (if index < warmup then warmup else index)
            && forall k :: 0 <= k < |samples| ==> samples[k] == Steady(value)
    decreases total - index
  {
    if index < total {
      MeasureFromIsSteady(value, warmup, total, index + 1);
    }
  }

  /** The modelled metrics: one frame and one watt a unit, half a degree, and errors past ninety. */
  lemma SteadyMetrics(value: U64)
    requires value <= 0xFFFF_FFFF
    ensures Steady(value).fps == 60.0 + value as real
    ensures Steady(value).temperatureC == 50.0 + value as real / 2.0
    ensures Steady(value).powerW == 100.0 + value as real
    ensures value <= 90 ==> Steady(value).errors == 0
    ensures value > 90 ==> Steady(value).errors + 90 == value
  {
  }

  /** Exactly the counted samples, every one in steady state, however long the warm-up. */
  lemma MeasureIsSteady(value: U64, warmup: U32, counted: U32)
    ensures |Measure(value, warmup, counted)| == counted
    ensures forall k :: 0 <= k < counted ==> Measure(value, warmup, counted)[k] == Steady(value)
  {
    MeasureFromIsSteady(value, warmup, warmup + counted, 0);
  }
}
