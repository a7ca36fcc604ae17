/** The four air-quality bands both model pages classify into, ordered from
    best to worst. */
module Bands {
  import opened Optional

  datatype Band = Good | Moderate | UnhealthyForSensitive | Unhealthy

  /** Position of a band in the best-to-worst order. */
  function Rank(b: Band): nat
  {
    match b
    case Good => 0
    case Moderate => 1
    case UnhealthyForSensitive => 2
    case Unhealthy => 3
  }

  /** The status text both pages show for a band. */
  function Label(b: Band): string
  {
    match b
    case Good => "Good"
    case Moderate => "Moderate"
    case UnhealthyForSensitive => "Unhealthy for Sensitive"
    case Unhealthy => "Unhealthy"
  }

  /** Reads a status text back as a band; `Label` is its right inverse. */
  function BandOfLabel(s: string): (r: Option<Band>)
    ensures forall b :: s == Label(b) ==> r == Some(b)
  {
    if s == "Good" then Some(Good)
    else if s == "Moderate" then Some(Moderate)
    else if s == "Unhealthy for Sensitive" then Some(UnhealthyForSensitive)
    else if s == "Unhealthy" then Some(Unhealthy)
    else None
  }
}

/** The live dashboard of `src/app/models/page.tsx`: the inclusive AQI
    classifier, the what-if scenario arithmetic and the playback controls. */
module Dashboard {
  import opened Numeric
  import opened Optional
  import opened Bands

  // ---------------------------------------------------------------------
  // Classification (`getAQIColor`, `getAQILabel`)
  // ---------------------------------------------------------------------

  /** The band a value falls in under the `<=` thresholds 50 / 100 / 150. */
  function InclusiveBand(v: real): (b: Band)
    ensures b == Good <==> v <= 50.0
    ensures b == Moderate <==> 50.0 < v <= 100.0
    ensures b == UnhealthyForSensitive <==> 100.0 < v <= 150.0
    ensures b == Unhealthy <==> 150.0 < v
  {
    if v <= 50.0 then Good
    else if v <= 100.0 then Moderate
    else if v <= 150.0 then UnhealthyForSensitive
    else Unhealthy
  }

  /** A larger value never falls in a better band. */
  lemma InclusiveBandMonotone(v: real, w: real)
    requires v <= w
    ensures Rank(InclusiveBand(v)) <= Rank(InclusiveBand(w))
  {
  }

  /** `getAQILabel`. */
  function AqiLabel(v: real): (r: string)
    ensures r == "Good" <==> v <= 50.0
    ensures r == "Moderate" <==> 50.0 < v <= 100.0
    ensures r == "Unhealthy for Sensitive" <==> 100.0 < v <= 150.0
    ensures r == "Unhealthy" <==> 150.0 < v
  {
    if v <= 50.0 then "Good"
    else if v <= 100.0 then "Moderate"
    else if v <= 150.0 then "Unhealthy for Sensitive"
    else "Unhealthy"
  }

  /** `getAQIColor`: the gradient class of each band; read back, the class
      names the band the thresholds select. */
  function AqiColor(v: real): (r: string)
    ensures BandOfColor(r) == Some(InclusiveBand(v))
  {
    if v <= 50.0 then "from-green-500 to-emerald-500"
    else if v <= 100.0 then "from-yellow-500 to-orange-400"
    else if v <= 150.0 then "from-orange-500 to-red-400"
    else "from-red-500 to-pink-500"
  }

  /** Reads a gradient class back as the band it stands for. */
  function BandOfColor(c: string): Option<Band>
  {
    if c == "from-green-500 to-emerald-500" then Some(Good)
    else if c == "from-yellow-500 to-orange-400" then Some(Moderate)
    else if c == "from-orange-500 to-red-400" then Some(UnhealthyForSensitive)
    else if c == "from-red-500 to-pink-500" then Some(Unhealthy)
    else None
  }

  /** Label and colour are two renderings of one band: for every value both
      decode to the band the thresholds select. */
  lemma LabelAndColorAgree(v: real)
    ensures BandOfLabel(AqiLabel(v)) == Some(InclusiveBand(v))
    ensures BandOfColor(AqiColor(v)) == Some(InclusiveBand(v))
    ensures AqiLabel(v) == Label(InclusiveBand(v))
  {
  }

  // ---------------------------------------------------------------------
  // What-if simulation
  // ---------------------------------------------------------------------

  /** Slider positions (integers from `parseInt`) and the weather choice. */
  datatype Scenario = Scenario(trafficLevel: int, emissionsLevel: int, weather: string)

  const InitialScenario := Scenario(50, 30, "clear")

  /** Both range inputs span 0..100. */
  predicate SlidersInRange(s: Scenario)
  {
    0 <= s.trafficLevel <= 100 && 0 <= s.emissionsLevel <= 100
  }

  /** Predicted AQI before `Math.round`. */
  function PredictedAqiRaw(s: Scenario): (r: real)
    ensures SlidersInRange(s) ==> 50.0 <= r <= 250.0
  {
    50.0 + s.trafficLevel as real * 0.8 + s.emissionsLevel as real * 1.2
  }

  /** The displayed predicted AQI. */
  function PredictedAqi(s: Scenario): (r: int)
    ensures SlidersInRange(s) ==> 50 <= r <= 250
  {
    Round(PredictedAqiRaw(s))
  }

  /** The "Traffic Impact: +n" figure: at most 80 points, and none exactly
      when the traffic slider is at zero. */
  function TrafficImpact(s: Scenario): (r: int)
    ensures SlidersInRange(s) ==> 0 <= r <= 80 && (r == 0 <==> s.trafficLevel == 0)
  {
    Round(s.trafficLevel as real * 0.8)
  }

  /** The "Industrial Impact: +n" figure: at most 120 points, and none
      exactly when the emissions slider is at zero. */
  function IndustrialImpact(s: Scenario): (r: int)
    ensures SlidersInRange(s) ==> 0 <= r <= 120 && (r == 0 <==> s.emissionsLevel == 0)
  {
    Round(s.emissionsLevel as real * 1.2)
  }

  /** The "Weather Modifier" figure. */
  function WeatherModifier(weather: string): (r: int)
    ensures r != 0 <==> weather == "windy" || weather == "inversion"
  {
    if weather == "windy" then -15 else if weather == "inversion" then 25 else 0
  }

  /** The displayed prediction is the base 50 plus the two displayed impacts,
      up to one unit of rounding; the displayed weather modifier is never
      added in. */
  lemma DisplayedImpactsAddUp(s: Scenario)
    ensures PredictedAqi(s) - 1 <= 50 + TrafficImpact(s) + IndustrialImpact(s) <= PredictedAqi(s) + 1
  {
  }

  /** Changing the weather selection leaves the prediction as it was. */
  lemma WeatherDoesNotChangePrediction(s: Scenario, w: string)
    ensures PredictedAqi(s.(weather := w)) == PredictedAqi(s)
    ensures ImpactBarWidth(s.(weather := w)) == ImpactBarWidth(s)
  {
  }

  /** Width, in percent, of the impact bar under the prediction. */
  function ImpactBarWidth(s: Scenario): (r: real)
    ensures r <= 100.0
    ensures r == 100.0 || r == PredictedAqiRaw(s) / 2.0
    ensures SlidersInRange(s) ==> 25.0 <= r
    ensures PredictedAqiRaw(s) <= 200.0 ==> r == PredictedAqiRaw(s) / 2.0
  {
    Min(100.0, PredictedAqiRaw(s) / 2.0)
  }

  // ---------------------------------------------------------------------
  // Playback
  // ---------------------------------------------------------------------

  /** The playback part of the page state. `speed` only sets the interval
      period, which is not modelled. */
  datatype Playback = Playback(isPlaying: bool, speed: real, aqiValue: real, predictionAccuracy: real)

  const InitialPlayback := Playback(false, 1.0, 89.0, 94.0)

  /** The ranges the playback clamps keep the two readings in. */
  predicate PlaybackInRange(p: Playback)
  {
    20.0 <= p.aqiValue <= 200.0 && 85.0 <= p.predictionAccuracy <= 98.0
  }

  /** One interval callback; `r1` and `r2` are the two `Math.random()` draws. */
  function PlaybackTick(p: Playback, r1: real, r2: real): (q: Playback)
    requires 0.0 <= r1 < 1.0 && 0.0 <= r2 < 1.0
    ensures p.isPlaying ==> PlaybackInRange(q)
    ensures !p.isPlaying ==> q == p
    ensures q.isPlaying == p.isPlaying && q.speed == p.speed
    ensures p.isPlaying && PlaybackInRange(p) ==>
      Abs(q.aqiValue - p.aqiValue) <= 2.0 && Abs(q.predictionAccuracy - p.predictionAccuracy) <= 1.0
  {
    ClampNonExpansive(20.0, 200.0, p.aqiValue, (r1 - 0.5) * 4.0);
    ClampNonExpansive(85.0, 98.0, p.predictionAccuracy, (r2 - 0.5) * 2.0);
    if p.isPlaying then
      p.(aqiValue := Clamp(20.0, 200.0, p.aqiValue + (r1 - 0.5) * 4.0),
         predictionAccuracy := Clamp(85.0, 98.0, p.predictionAccuracy + (r2 - 0.5) * 2.0))
    else
      p
  }

  /** The play/pause button. */
  function TogglePlay(p: Playback): (q: Playback)
    ensures q.isPlaying != p.isPlaying
    ensures q.(isPlaying := p.isPlaying) == p
  {
    p.(isPlaying := !p.isPlaying)
  }

  /** The reset button. */
  function ResetPlayback(p: Playback): (q: Playback)
    ensures !q.isPlaying && q.aqiValue == 89.0 && q.predictionAccuracy == 94.0
    ensures q.speed == p.speed
    ensures q == InitialPlayback.(speed := p.speed)
  {
    p.(isPlaying := false, aqiValue := 89.0, predictionAccuracy := 94.0)
  }

  /** A sequence of interval callbacks, each with its two random draws. */
  function PlaybackRun(p: Playback, draws: seq<(real, real)>): Playback
    requires forall i :: 0 <= i < |draws| ==> 0.0 <= draws[i].0 < 1.0 && 0.0 <= draws[i].1 < 1.0
    decreases |draws|
  {
    if draws == [] then p
    else PlaybackRun(PlaybackTick(p, draws[0].0, draws[0].1), draws[1..])
  }

  /** From the initial readings (or any in-range readings), no run of ticks
      ever leaves the clamped ranges, and a paused run changes nothing. */
  lemma {:induction false} PlaybackRunStaysInRange(p: Playback, draws: seq<(real, real)>)
    requires forall i :: 0 <= i < |draws| ==> 0.0 <= draws[i].0 < 1.0 && 0.0 <= draws[i].1 < 1.0
    requires PlaybackInRange(p)
    ensures PlaybackInRange(PlaybackRun(p, draws))
    ensures !p.isPlaying ==> PlaybackRun(p, draws) == p
    decreases |draws|
  {
    if draws != [] {
      PlaybackRunStaysInRange(PlaybackTick(p, draws[0].0, draws[0].1), draws[1..]);
    }
  }

  /** After a reset the readings are back in range and ticks are inert. */
  lemma ResetThenTickIsInert(p: Playback, r1: real, r2: real)
    requires 0.0 <= r1 < 1.0 && 0.0 <= r2 < 1.0
    ensures PlaybackInRange(ResetPlayback(p))
    ensures PlaybackTick(ResetPlayback(p), r1, r2) == ResetPlayback(p)
  {
  }
}
