/** The interactive models of `src/app/models/page.js`: the hybrid prediction
    over the environmental sliders, its strict status bands, the quantum step
    counter and the pollution-reduction game. */
module HybridModel {
  import opened Numeric
  import opened Optional
  import opened Bands
  import Dashboard

  // ---------------------------------------------------------------------
  // Prediction (`calculatePrediction`)
  // ---------------------------------------------------------------------

  /** `Math.max(0.3, 1 - windSpeed / 50)`. */
  function WindFactor(windSpeed: real): (r: real)
    ensures r >= 0.3
    ensures 0.0 <= windSpeed ==> r <= 1.0
    ensures windSpeed >= 35.0 ==> r == 0.3
    ensures windSpeed <= 35.0 ==> r == 1.0 - windSpeed / 50.0
  {
    Max(0.3, 1.0 - windSpeed / 50.0)
  }

  /** `1 + (temperature - 20) * 0.02`. */
  function TempFactor(temperature: real): (r: real)
    ensures temperature == 20.0 ==> r == 1.0
    ensures -10.0 <= temperature <= 45.0 ==> 0.4 <= r <= 1.5
    ensures r > 0.0 <==> temperature > -30.0
  {
    1.0 + (temperature - 20.0) * 0.02
  }

  /** The ranges of the three range inputs; the pollution level may also hold
      the fractional values the reduction game leaves behind. */
  predicate SlidersInRange(pollutionLevel: real, windSpeed: real, temperature: real)
  {
    0.0 <= pollutionLevel <= 200.0 && 0.0 <= windSpeed <= 50.0 && -10.0 <= temperature <= 45.0
  }

  /** `quantumFactor = sin(step * 0.1) * 0.2 + 0.8`; the sine is not modelled,
      only the range it confines the factor to. */
  predicate QuantumFactorInRange(q: real)
  {
    0.6 <= q <= 1.0
  }

  /** The band of a rounded prediction under the strict `<` thresholds. */
  function StrictBand(v: int): (b: Band)
    ensures b == Good <==> v < 50
    ensures b == Moderate <==> 50 <= v < 100
    ensures b == UnhealthyForSensitive <==> 100 <= v < 150
    ensures b == Unhealthy <==> 150 <= v
  {
    if v < 50 then Good
    else if v < 100 then Moderate
    else if v < 150 then UnhealthyForSensitive
    else Unhealthy
  }

  /** The `status` text: read back, it names the band the strict thresholds
      select. */
  function StatusText(v: int): (r: string)
    ensures BandOfLabel(r) == Some(StrictBand(v))
  {
    if v < 50 then "Good"
    else if v < 100 then "Moderate"
    else if v < 150 then "Unhealthy for Sensitive"
    else "Unhealthy"
  }

  /** The `color` class: read back, it names the same band as the status
      text. */
  function StatusColor(v: int): (r: string)
    ensures BandOfStatusColor(r) == Some(StrictBand(v))
  {
    if v < 50 then "text-green-400"
    else if v < 100 then "text-yellow-400"
    else if v < 150 then "text-orange-400"
    else "text-red-400"
  }

  /** Reads a colour class back as the band it stands for. */
  function BandOfStatusColor(c: string): Option<Band>
  {
    if c == "text-green-400" then Some(Good)
    else if c == "text-yellow-400" then Some(Moderate)
    else if c == "text-orange-400" then Some(UnhealthyForSensitive)
    else if c == "text-red-400" then Some(Unhealthy)
    else None
  }

  /** This page and the dashboard classify every integer AQI alike except
      exactly at the three thresholds, where this page's strict comparison
      puts the value one band worse. */
  lemma BandsDisagreeOnlyAtThresholds(v: int)
    ensures StrictBand(v) != Dashboard.InclusiveBand(v as real) <==> v == 50 || v == 100 || v == 150
    ensures StrictBand(v) != Dashboard.InclusiveBand(v as real) ==>
      Rank(StrictBand(v)) == Rank(Dashboard.InclusiveBand(v as real)) + 1
  {
  }

  /** What `setPrediction` stores. */
  datatype Prediction = Prediction(aqi: int, confidence: int, status: string, color: string)

  lemma MulBounds(x: real, y: real, xmax: real, ymax: real)
    requires 0.0 <= x <= xmax && 0.0 <= y <= ymax
    ensures 0.0 <= x * y <= xmax * ymax
  {
  }

  /** Over the slider ranges the product of level and factors lies in 0..300. */
  lemma RawPredictionBounds(pollutionLevel: real, windSpeed: real, temperature: real, q: real)
    ensures SlidersInRange(pollutionLevel, windSpeed, temperature) && QuantumFactorInRange(q) ==>
      0.0 <= pollutionLevel * WindFactor(windSpeed) * TempFactor(temperature) * q <= 300.0
  {
    if SlidersInRange(pollutionLevel, windSpeed, temperature) && QuantumFactorInRange(q) {
      var a := pollutionLevel * WindFactor(windSpeed);
      MulBounds(pollutionLevel, WindFactor(windSpeed), 200.0, 1.0);
      var b := a * TempFactor(temperature);
      MulBounds(a, TempFactor(temperature), 200.0, 1.5);
      MulBounds(b, q, 300.0, 1.0);
    }
  }

  /** The rounded, not yet clamped, prediction; over the slider ranges it
      lies in 0..300, so the later clamp to 0..500 never bites. */
  function PredictedAqi(pollutionLevel: real, windSpeed: real, temperature: real, q: real): (r: int)
    ensures SlidersInRange(pollutionLevel, windSpeed, temperature) && QuantumFactorInRange(q) ==> 0 <= r <= 300
  {
    RawPredictionBounds(pollutionLevel, windSpeed, temperature, q);
    Round(pollutionLevel * WindFactor(windSpeed) * TempFactor(temperature) * q)
  }

  /** `calculatePrediction`; `q` is the quantum factor. */
  function CalculatePrediction(pollutionLevel: real, windSpeed: real, temperature: real, q: real): (p: Prediction)
    requires QuantumFactorInRange(q)
    ensures 0 <= p.aqi <= 500
    ensures 85 <= p.confidence <= 99
    ensures BandOfLabel(p.status) == Some(StrictBand(PredictedAqi(pollutionLevel, windSpeed, temperature, q)))
    ensures BandOfStatusColor(p.color) == Some(StrictBand(PredictedAqi(pollutionLevel, windSpeed, temperature, q)))
    ensures SlidersInRange(pollutionLevel, windSpeed, temperature) ==>
      p.aqi == PredictedAqi(pollutionLevel, windSpeed, temperature, q) && BandOfLabel(p.status) == Some(StrictBand(p.aqi))
  {
    var predicted := PredictedAqi(pollutionLevel, windSpeed, temperature, q);
    var confidence := Round((q + 0.2) * 100.0);
    Prediction(Clamp(0.0, 500.0, predicted as real).Floor, Clamp(85.0, 99.0, confidence as real).Floor,
               StatusText(predicted), StatusColor(predicted))
  }

  // ---------------------------------------------------------------------
  // Page state: quantum step counter and the reduction game
  // ---------------------------------------------------------------------

  datatype ModelsState = ModelsState(
    isPlaying: bool,
    pollutionLevel: real,
    windSpeed: real,
    temperature: real,
    quantumState: int)

  const InitialModelsState := ModelsState(false, 75.0, 15.0, 22.0, 0)

  /** One 100 ms interval callback; the interval only runs while playing. */
  function QuantumTick(s: ModelsState): (t: ModelsState)
    ensures s.isPlaying ==> t.quantumState == s.quantumState + 1
    ensures !s.isPlaying ==> t == s
    ensures t.(quantumState := s.quantumState) == s
  {
    if s.isPlaying then s.(quantumState := s.quantumState + 1) else s
  }

  function QuantumTicks(s: ModelsState, n: nat): ModelsState
    decreases n
  {
    if n == 0 then s else QuantumTicks(QuantumTick(s), n - 1)
  }

  /** While playing, `n` ticks advance the step by exactly `n` and touch
      nothing else. */
  lemma {:induction false} QuantumTicksCount(s: ModelsState, n: nat)
    requires s.isPlaying
    ensures QuantumTicks(s, n) == s.(quantumState := s.quantumState + n)
    decreases n
  {
    if n > 0 {
      QuantumTicksCount(QuantumTick(s), n - 1);
    }
  }

  /** The Reset button of the quantum state panel. */
  function ResetQuantum(s: ModelsState): (t: ModelsState)
    ensures t.quantumState == 0
    ensures t.(quantumState := s.quantumState) == s
  {
    s.(quantumState := 0)
  }

  /** A pollution source of the reduction game; `value` is its share in percent. */
  datatype Source = Source(name: string, value: int, color: string)

  const PollutionSources: seq<Source> := [
    Source("Vehicle Emissions", 35, "#ef4444"),
    Source("Industrial", 28, "#f97316"),
    Source("Power Plants", 22, "#eab308"),
    Source("Agriculture", 15, "#22c55e")
  ]

  function SumShares(sources: seq<Source>): int
  {
    if sources == [] then 0 else sources[0].value + SumShares(sources[1..])
  }

  /** The four shares add up to the whole, and each is positive. */
  lemma SourceSharesSumTo100()
    ensures SumShares(PollutionSources) == 100
    ensures forall i :: 0 <= i < |PollutionSources| ==> PollutionSources[i].value > 0
  {
  }

  /** New pollution level after clicking a source of the given share. */
  function Reduce(level: real, share: real): (r: real)
    ensures r >= 0.0
    ensures 0.0 <= level && 0.0 <= share ==> r <= level
    ensures level >= 0.3 * share ==> r == level - 0.3 * share
    ensures level <= 0.3 * share ==> r == 0.0
  {
    Max(0.0, level - share * 0.3)
  }

  /** Clicking a source button. */
  function ClickSource(s: ModelsState, src: Source): (t: ModelsState)
    ensures t.pollutionLevel >= 0.0
    ensures s.pollutionLevel >= 0.0 && src.value > 0 ==> t.pollutionLevel <= s.pollutionLevel
    ensures s.pollutionLevel > 0.0 && src.value > 0 ==> t.pollutionLevel < s.pollutionLevel
    ensures t.(pollutionLevel := s.pollutionLevel) == s
  {
    s.(pollutionLevel := Reduce(s.pollutionLevel, src.value as real))
  }

  function ReduceTimes(level: real, share: real, n: nat): real
    decreases n
  {
    if n == 0 then level else ReduceTimes(Reduce(level, share), share, n - 1)
  }

  /** `n` clicks on one source take off `n` times its reduction, stopping at
      zero. */
  lemma {:induction false} ReduceTimesClosedForm(level: real, share: real, n: nat)
    requires level >= 0.0 && share >= 0.0
    ensures ReduceTimes(level, share, n) == Max(0.0, level - n as real * 0.3 * share)
    decreases n
  {
    if n > 0 {
      ReduceTimesClosedForm(Reduce(level, share), share, n - 1);
    }
  }

  /** The "-n" caption on a source button is the nominal reduction, 0.3
      times the share, rounded; so it is off from that by at most one half. */
  function ReductionCaption(src: Source): (r: int)
    ensures src.value as real * 0.3 - 0.5 < r as real <= src.value as real * 0.3 + 0.5
  {
    Round(src.value as real * 0.3)
  }

  /** What a click actually takes off: the nominal reduction while the level
      covers it, and only the remaining level once it floors at zero; so the
      caption is within one half of the drop exactly in the first case, and
      can overstate it by up to the whole nominal reduction in the second. */
  lemma CaptionVersusAppliedDrop(level: real, src: Source)
    requires level >= 0.0 && src.value >= 0
    ensures level - Reduce(level, src.value as real) <= src.value as real * 0.3
    ensures level - Reduce(level, src.value as real) == src.value as real * 0.3 <==> level >= src.value as real * 0.3
    ensures level >= src.value as real * 0.3 ==>
      Abs(ReductionCaption(src) as real - (level - Reduce(level, src.value as real))) <= 0.5
    ensures level < src.value as real * 0.3 ==>
      level - Reduce(level, src.value as real) == level
  {
  }
}
