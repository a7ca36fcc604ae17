/** The global store `useSimulationStore` of `src/lib/store.ts`: four fields,
    each with a setter that replaces that field alone. */
module SimulationStore {

  datatype SimulationState = SimulationState(
    isPlaying: bool,
    speed: real,
    selectedPollutant: string,
    showQuantumLayer: bool)

  const InitialStore := SimulationState(false, 1.0, "PM2.5", false)

  function SetPlaying(s: SimulationState, playing: bool): (t: SimulationState)
    ensures t.isPlaying == playing
    ensures t.speed == s.speed && t.selectedPollutant == s.selectedPollutant && t.showQuantumLayer == s.showQuantumLayer
  {
    s.(isPlaying := playing)
  }

  function SetSpeed(s: SimulationState, speed: real): (t: SimulationState)
    ensures t.speed == speed
    ensures t.isPlaying == s.isPlaying && t.selectedPollutant == s.selectedPollutant && t.showQuantumLayer == s.showQuantumLayer
  {
    s.(speed := speed)
  }

  function SetSelectedPollutant(s: SimulationState, pollutant: string): (t: SimulationState)
    ensures t.selectedPollutant == pollutant
    ensures t.isPlaying == s.isPlaying && t.speed == s.speed && t.showQuantumLayer == s.showQuantumLayer
  {
    s.(selectedPollutant := pollutant)
  }

  function SetShowQuantumLayer(s: SimulationState, show: bool): (t: SimulationState)
    ensures t.showQuantumLayer == show
    ensures t.isPlaying == s.isPlaying && t.speed == s.speed && t.selectedPollutant == s.selectedPollutant
  {
    s.(showQuantumLayer := show)
  }

  /** Applying a setter twice with the same argument is applying it once;
      setting a field to its current value changes nothing. */
  lemma SettersIdempotent(s: SimulationState, p: bool, v: real, pol: string, q: bool)
    ensures SetPlaying(SetPlaying(s, p), p) == SetPlaying(s, p)
    ensures SetSpeed(SetSpeed(s, v), v) == SetSpeed(s, v)
    ensures SetSelectedPollutant(SetSelectedPollutant(s, pol), pol) == SetSelectedPollutant(s, pol)
    ensures SetShowQuantumLayer(SetShowQuantumLayer(s, q), q) == SetShowQuantumLayer(s, q)
    ensures SetPlaying(s, s.isPlaying) == s && SetSpeed(s, s.speed) == s
    ensures SetSelectedPollutant(s, s.selectedPollutant) == s && SetShowQuantumLayer(s, s.showQuantumLayer) == s
  {
  }

  /** Setters of different fields commute, so the order in which components
      write the store does not matter. */
  lemma SettersCommute(s: SimulationState, p: bool, v: real, pol: string, q: bool)
    ensures SetPlaying(SetSpeed(s, v), p) == SetSpeed(SetPlaying(s, p), v)
    ensures SetSelectedPollutant(SetShowQuantumLayer(s, q), pol) == SetShowQuantumLayer(SetSelectedPollutant(s, pol), q)
    ensures SetPlaying(SetSelectedPollutant(s, pol), p) == SetSelectedPollutant(SetPlaying(s, p), pol)
    ensures SetSpeed(SetShowQuantumLayer(s, q), v) == SetShowQuantumLayer(SetSpeed(s, v), q)
  {
  }

  /** Four setter calls reach any state from the initial one. */
  lemma EveryStateReachable(t: SimulationState)
    ensures SetShowQuantumLayer(SetSelectedPollutant(SetSpeed(SetPlaying(InitialStore, t.isPlaying), t.speed), t.selectedPollutant), t.showQuantumLayer) == t
  {
  }
}
