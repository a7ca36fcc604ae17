# Envirocast page logic in Dafny

Envirocast is a marketing site for an air-quality forecasting product. Its pages
hold a few small pieces of logic: AQI band classifiers, "what-if" and "hybrid"
prediction formulas over sliders, a prediction game, list filters on the
research and resources pages, the contact page's form and office rotation, and
a global simulation store. This project models each of them as immutable
records and pure transition functions, and proves their bounds, clamps, band
agreement, filter properties and frame conditions.

Modelling conventions:

- Numbers are `real`. `Math.round(x)` is `(x + 0.5).Floor` and `Math.floor` is
  `.Floor`. `Math.max(lo, Math.min(hi, x))` is `Numeric.Clamp`.
- Every `Math.random()` term is a parameter `r` with `0 <= r < 1`.
- The quantum factor `sin(step * 0.1) * 0.2 + 0.8` is an opaque input in
  `[0.6, 1.0]`.
- Each timer callback (`setInterval`, `setTimeout`) and each event handler is
  one transition function. Sequences of them are `Run`-style folds.
- `toLowerCase` is ASCII lower-casing. `includes` is substring search.
- JavaScript `null` is `Optional.None`.

Modules, one per source file plus helpers:

| module | file | source |
|---|---|---|
| `Numeric`, `Optional` | numeric.dfy | shared `Math` helpers |
| `Subsequences` | subsequences.dfy | `Array.prototype.filter` |
| `Text` | text.dfy | `toLowerCase`, `includes` |
| `Bands`, `Dashboard` | dashboard.dfy | src/app/models/page.tsx |
| `HybridModel` | hybrid.dfy | src/app/models/page.js |
| `PredictionGame` | game.dfy | src/components/models/prediction-game.tsx |
| `Research` | research.dfy | src/app/research/page.js |
| `Resources` | resources.dfy | src/app/resources/page.tsx |
| `Contact` | contact.dfy | src/app/contact/page.js |
| `SimulationStore` | store.dfy | src/lib/store.ts |

The two model pages classify AQI differently. The dashboard uses `<=` 50/100/150.
The hybrid page uses `<` on the rounded prediction. They are modelled
separately, and `HybridModel.BandsDisagreeOnlyAtThresholds` proves they differ
exactly at the integers 50, 100 and 150. At those values the hybrid page's band
is one worse.

In the prediction game the new level is computed from the score *before* the
submission's points are added. It is modelled as written, and
`PredictionGame.LevelLagsOneSubmission` shows the lag on a concrete state.

## Model

| member | source | states |
|---|---|---|
| Numeric.Clamp | src/app/models/page.tsx:76 | the clamp idiom lands in `[lo, hi]`; it leaves in-range values alone and sends out-of-range values to the nearer bound |
| Numeric.ClampNonExpansive | src/app/models/page.tsx:76-77 | clamping an in-range value plus a jitter moves it by no more than the jitter |
| Numeric.Round | src/app/models/page.tsx:264 | `Math.round` yields the integer within half a unit, halves going up |
| Text.LowerChar | src/app/research/page.js:138 | lower-casing sends A–Z to the same letter in a–z, leaves every other character unchanged, and never yields an upper-case letter |
| Text.Lower | src/app/research/page.js:138-140 | `toLowerCase` keeps the length and lower-cases position by position |
| Text.LowerIdempotent | src/app/research/page.js:138-140 | lower-casing an already lower-cased term changes nothing |
| Text.ContainsIff | src/app/research/page.js:138 | the scanning `includes` holds exactly when the term occurs at some position, in both directions |
| Text.ContainsEmpty | src/app/research/page.js:138 | every string includes the empty search term |
| Subsequences.Filter | src/app/resources/page.tsx:79 | a filter returns an order-preserving subsequence holding each passing element exactly as many times as the input does, and no other element |
| Subsequences.FilterEmptyIff | src/app/research/page.js:390 | a filter's result is empty iff no element passes |
| Dashboard.InclusiveBand | src/app/models/page.tsx:52-64 | the band is Good iff v ≤ 50, Moderate iff 50 < v ≤ 100, Unhealthy for Sensitive iff 100 < v ≤ 150, Unhealthy iff v > 150 |
| Dashboard.InclusiveBandMonotone | src/app/models/page.tsx:52-64 | a larger AQI never gets a better band |
| Dashboard.AqiLabel | src/app/models/page.tsx:59-64 | each of the four labels is returned exactly on its threshold interval |
| Dashboard.AqiColor | src/app/models/page.tsx:52-57 | the gradient class, read back, names exactly the band the inclusive thresholds select |
| Dashboard.LabelAndColorAgree | src/app/models/page.tsx:52-64 | for every value, label and gradient decode to the same band, the one the thresholds select |
| Dashboard.PredictedAqiRaw | src/app/models/page.tsx:186-219 | with both sliders in 0..100 the unrounded prediction lies in [50, 250] |
| Dashboard.PredictedAqi | src/app/models/page.tsx:263-264 | the displayed prediction lies in [50, 250] for all slider positions |
| Dashboard.TrafficImpact | src/app/models/page.tsx:277 | for in-range sliders the traffic figure lies in [0, 80] and is 0 exactly when the traffic slider is at 0 |
| Dashboard.IndustrialImpact | src/app/models/page.tsx:281 | for in-range sliders the industrial figure lies in [0, 120] and is 0 exactly when the emissions slider is at 0 |
| Dashboard.DisplayedImpactsAddUp | src/app/models/page.tsx:274-282 | 50 plus the two displayed (rounded) impacts is within 1 of the displayed prediction, and the weather modifier is not part of the sum |
| Dashboard.WeatherModifier | src/app/models/page.tsx:284-286 | the displayed modifier is non-zero exactly for "windy" and "inversion" |
| Dashboard.WeatherDoesNotChangePrediction | src/app/models/page.tsx:242-270 | changing the weather selection changes neither the prediction nor the impact bar |
| Dashboard.ImpactBarWidth | src/app/models/page.tsx:270 | the bar width never exceeds 100 %, is at least 25 % for in-range sliders, and equals half the prediction up to 200 |
| Dashboard.PlaybackTick | src/app/models/page.tsx:73-79 | while playing, a tick leaves AQI in [20, 200] and accuracy in [85, 98] for any draws, moving in-range values by at most 2 and 1; while paused nothing changes |
| Dashboard.PlaybackRunStaysInRange | src/app/models/page.tsx:73-82 | from in-range readings, no sequence of ticks ever leaves the ranges, and a paused run is the identity |
| Dashboard.TogglePlay | src/app/models/page.tsx:446 | play/pause flips only the playing flag |
| Dashboard.ResetPlayback | src/app/models/page.tsx:456-461 | reset stops playback and restores AQI 89 and accuracy 94, keeping the speed |
| Dashboard.ResetThenTickIsInert | src/app/models/page.tsx:457-461 | after a reset the readings are in range and further ticks change nothing |
| HybridModel.WindFactor | src/app/models/page.js:64 | the wind factor is at least 0.3, at most 1 for non-negative wind, exactly 0.3 from 35 mph up and linear below |
| HybridModel.TempFactor | src/app/models/page.js:65 | the temperature factor is exactly 1 at 20 °C, lies in [0.4, 1.5] over the −10..45 slider and is positive iff the temperature is above −30 |
| HybridModel.StrictBand | src/app/models/page.js:73 | each band is selected exactly on its strict-threshold interval |
| HybridModel.StatusText | src/app/models/page.js:73 | the status text, read back, names exactly the band the strict thresholds select |
| HybridModel.StatusColor | src/app/models/page.js:74 | the colour class, read back, names the same strict band as the status text |
| HybridModel.BandsDisagreeOnlyAtThresholds | src/app/models/page.js:73-74 | this page's strict bands and the dashboard's inclusive bands differ iff the AQI is 50, 100 or 150, and then by one band |
| HybridModel.RawPredictionBounds | src/app/models/page.js:62-67 | over the slider ranges and the quantum-factor range the product of level, wind, temperature and quantum factors lies in [0, 300] |
| HybridModel.PredictedAqi | src/app/models/page.js:67 | over the slider ranges and the quantum-factor range the rounded prediction lies in [0, 300], inside the later 0..500 clamp |
| HybridModel.CalculatePrediction | src/app/models/page.js:60-76 | the stored aqi is in [0, 500], the confidence in [85, 99], status and colour follow the unclamped prediction, and over slider ranges the clamp is inactive |
| HybridModel.QuantumTick | src/app/models/page.js:82-89 | a tick adds exactly 1 to the step while playing, does nothing while paused, and touches no other field |
| HybridModel.QuantumTicksCount | src/app/models/page.js:82-89 | n ticks while playing advance the step by exactly n and change nothing else |
| HybridModel.ResetQuantum | src/app/models/page.js:273-274 | Reset sets the step to 0 and changes nothing else |
| HybridModel.SourceSharesSumTo100 | src/app/models/page.js:51-56 | the four pollution-source shares sum to 100 and each is positive |
| HybridModel.Reduce | src/app/models/page.js:434 | the reduced level is never negative, never above a non-negative old level, and is exactly old − 0.3·share until it floors at 0 |
| HybridModel.ClickSource | src/app/models/page.js:429-435 | clicking a source never raises the pollution level, strictly lowers a positive one, and changes no other field |
| HybridModel.ReduceTimesClosedForm | src/app/models/page.js:433-435 | n clicks on one source give max(0, level − n·0.3·share) |
| HybridModel.ReductionCaption | src/app/models/page.js:437-439 | the "-n" caption is within 0.5 of the nominal reduction 0.3·share |
| HybridModel.CaptionVersusAppliedDrop | src/app/models/page.js:434-438 | a click takes off at most the nominal reduction, exactly it iff the level covers it (and then the caption is within 0.5 of the drop), and otherwise only the remaining level |
| PredictionGame.InitialGameValid | src/components/models/prediction-game.tsx:23-32 | the initial game state satisfies the game invariant |
| PredictionGame.StartGame | src/components/models/prediction-game.tsx:53-64 | starting resets score, streak and history, sets level 1 and 30 s, activates the game and draws an actual value in [0, 100) |
| PredictionGame.Tick | src/components/models/prediction-game.tsx:36-51 | an active tick with time left decrements the time by 1, keeps the actual value in [0, 100] and moves it by at most 5; at time 0 the game deactivates; the invariant is kept |
| PredictionGame.CountdownEndsGame | src/components/models/prediction-game.tsx:36-48 | an active game with n seconds left reaches 0 still active after n ticks, and the next run of the effect deactivates it |
| PredictionGame.Accuracy | src/components/models/prediction-game.tsx:67 | accuracy is at most 100, equals 100 iff the prediction is exact, exceeds 80 iff the miss is under 20, and lies in [0, 100] for in-range inputs |
| PredictionGame.Points | src/components/models/prediction-game.tsx:68 | points are non-negative for non-negative accuracy at level ≥ 1, at most 100·level, and are the floor of accuracy·level |
| PredictionGame.LevelFor | src/components/models/prediction-game.tsx:75 | level l satisfies 500(l−1) ≤ score < 500l, so it is ≥ 1 for a non-negative score |
| PredictionGame.Submit | src/components/models/prediction-game.tsx:66-78 | the streak grows iff accuracy > 80 and otherwise resets; the level comes from the pre-submission score; exactly one entry is appended with earlier history kept; the score grows by exactly floor(accuracy · pre-submission level), so in a consistent game it never decreases |
| PredictionGame.LevelLagsOneSubmission | src/components/models/prediction-game.tsx:71-75 | a submission lifting the score from 490 to 590 leaves the level at 1 |
| PredictionGame.ClearResult | src/components/models/prediction-game.tsx:80-86 | the follow-up timeout clears the shown prediction, keeps the actual value in [0, 100] and moves it by at most 7.5, changing nothing else |
| PredictionGame.TicksKeepLock | src/components/models/prediction-game.tsx:36-51 | any number of countdown ticks keeps a shown prediction, so the submit button stays disabled |
| PredictionGame.SubmitLocksUntilCleared | src/components/models/prediction-game.tsx:194-201 | after a submission the button stays disabled through any number of ticks, and the clearing timeout re-enables it while the game is active |
| PredictionGame.RunKeepsValid | src/components/models/prediction-game.tsx:36-86 | every sequence of start, tick, submit and clear events keeps score, level, streak, time and actual value in range |
| PredictionGame.RecentTrendInRange | src/components/models/prediction-game.tsx:91-92 | in a consistent game with at least two entries the recent average is in [0, 100] |
| PredictionGame.MeanInRange | src/components/models/prediction-game.tsx:92 | the average of recent actual values is itself in [0, 100] |
| PredictionGame.RecentActuals | src/components/models/prediction-game.tsx:91 | the trend is the actual values of the last min(3, n) entries, in order |
| PredictionGame.AiRecommendation | src/components/models/prediction-game.tsx:89-94 | the recommendation lies in [0, 100]; with fewer than 2 entries it is within 2.5 of the current actual value, otherwise within 2.5 of the recent average |
| Research.FilteredPublications | src/app/research/page.js:136-142 | the result is an order-preserving subsequence holding each publication that matches category and search exactly as often as the list does, and no other |
| Research.AllCategoriesEmptySearchShowsEverything | src/app/research/page.js:136-141 | with category "all" and an empty term every publication is returned, in order |
| Research.SearchIgnoresCase | src/app/research/page.js:138-140 | terms that differ only in letter case give the same result |
| Research.SearchLoweredTerm | src/app/research/page.js:138-140 | searching the lower-cased term gives the same result as the term itself |
| Research.SearchIgnoresAbstractAndJournal | src/app/research/page.js:138-140 | rewriting a publication's abstract or journal never changes whether it matches |
| Research.AbstractOnlyTermFindsNothing | src/app/research/page.js:138-141 | a term found in no title, author or keyword selects nothing |
| Research.FeaturedPublications | src/app/research/page.js:144 | featured is the order-preserving subsequence holding each featured publication exactly as often as the list does, and no other |
| Research.FeaturedOfAlternatingTail | src/app/research/page.js:144 | in a five-entry list whose 3rd–5th entries are flagged on/off/on, filtering from the 3rd entry gives the 3rd and 5th entries |
| Research.FeaturedOfAlternatingFlags | src/app/research/page.js:144 | a five-entry list flagged on/off/on/off/on features its 1st, 3rd and 5th entries |
| Research.FeaturedAreOneThreeFive | src/app/research/page.js:17-103 | on the shipped list the featured section shows publications 1, 3 and 5 |
| Research.NoResultsNotice | src/app/research/page.js:390-393 | the notice shows iff no publication matches both category and search |
| Resources.FilteredResources | src/app/resources/page.tsx:77-79 | "All" returns the list unchanged; any other filter returns an order-preserving subsequence holding each resource of that category exactly as often as the list does, and no other |
| Resources.ShippedCategoriesKnown | src/app/resources/page.tsx:8-57 | every shipped resource is a Dataset, Paper or Tool, and these are exactly the non-"All" filter buttons |
| Resources.CategoryViewsPartition | src/app/resources/page.tsx:75-79 | when every category is known, the three views together hold every resource exactly as often as the list (so their sizes add up), and a resource shows in a category view iff it has that category |
| Resources.ShippedViewsPartition | src/app/resources/page.tsx:8-79 | on the six shipped resources the Dataset, Paper and Tool views add up to the whole list, as a multiset |
| Contact.InputChange | src/app/contact/page.js:67-72 | an input change sets the named field and leaves every other field as it was |
| Contact.InputChangeLaws | src/app/contact/page.js:67-72 | re-entering a field's current value is a no-op, and a later change to a field overrides an earlier one |
| Contact.Type | src/app/contact/page.js:67-72 | typing changes the named form field only and no other page state |
| Contact.Submit | src/app/contact/page.js:74-76 | submitting raises the busy flag and changes nothing else |
| Contact.CompleteSubmission | src/app/contact/page.js:79-89 | completion clears the busy flag, sets status "success" and resets the form to the initial form (interest "general"), keeping the office |
| Contact.ClearStatus | src/app/contact/page.js:91 | the later timeout returns the status to null and changes nothing else |
| Contact.SubmissionSequence | src/app/contact/page.js:74-93 | submit, completion and clearing end in an idle, empty form with no status, whatever was typed, with the office selection kept |
| Contact.JsRemainder | src/app/contact/page.js:97 | JavaScript `%` is congruent to the dividend modulo the divisor, smaller than the divisor in size, and carries the dividend's sign, which pins it down for every dividend |
| Contact.RotateOffice | src/app/contact/page.js:95-101 | one rotation from any reachable index lands in [0, 3) |
| Contact.RotateTimesClosedForm | src/app/contact/page.js:95-101 | k rotations from office i land on (i + k) mod 3 |
| Contact.RotationStaysInRangeAndCycles | src/app/contact/page.js:18-48 | any number of rotations keeps a valid office index, and three rotations return to the start |
| Contact.ClickOffice | src/app/contact/page.js:365 | clicking office card i makes i active and changes nothing else |
| SimulationStore.SetPlaying | src/lib/store.ts:21 | the setter writes `isPlaying` and leaves the other three fields unchanged |
| SimulationStore.SetSpeed | src/lib/store.ts:22 | the setter writes `speed` and leaves the other three fields unchanged |
| SimulationStore.SetSelectedPollutant | src/lib/store.ts:23 | the setter writes `selectedPollutant` and leaves the other three fields unchanged |
| SimulationStore.SetShowQuantumLayer | src/lib/store.ts:24 | the setter writes `showQuantumLayer` and leaves the other three fields unchanged |
| SimulationStore.SettersIdempotent | src/lib/store.ts:21-24 | each setter applied twice equals applying it once, and writing a field's current value is a no-op |
| SimulationStore.SettersCommute | src/lib/store.ts:21-24 | setters of different fields commute |
| SimulationStore.EveryStateReachable | src/lib/store.ts:16-24 | from the initial state (not playing, speed 1, "PM2.5", layer hidden) the four setters reach any state |

## Left out

- Rendering is not modelled: canvas particles, SVG, Three.js scenes, framer-motion and CSS classes other than the band colours. It is drawing code with no contract.
- The random 72-hour forecast (src/app/models/page.tsx:153-154) is left out. It is noise with no contract.
- Timer periods and concurrency are not modelled. `setInterval`, `setTimeout` and `requestAnimationFrame` are discrete transitions with no clock, so two pending timeouts interleaving is not covered.
- The dashboard's `speed` only changes the interval period. It is carried along but not given meaning, and its slider (src/app/models/page.tsx:470-478) is not modelled.
- `Math.random()` and `Math.sin` are not modelled. Each appears as a bounded input.
- The game handlers read `gameState` from the render closure and also `prev` from the updater. The model uses one state for both, assuming no tick lands between render and click.
- The contact form's HTML `required` validation and the unknown-field case of `[e.target.name]` are left out. Only the six named inputs exist on the page.
- The research page's category counts (12/5/4/3 at src/app/research/page.js:10-15) are display constants that the filter never reads.
- Case folding is ASCII only. JavaScript's `toLowerCase` also folds other letters; for example the Kelvin sign U+212A becomes "k". A search containing it matches "Kernel Methods" on the page but nothing in the model.
- Numbers are exact reals, not IEEE doubles, so every contract over them holds over the reals only; floating-point rounding is not modelled.
- PredictionGame.Accuracy: "100 iff exact" and "above 80 iff the miss is under 20" hold over the reals only. Over doubles, `100 - Math.abs(p - a)` (src/components/models/prediction-game.tsx:67) rounds to exactly 100 when a = p + 2^-47.
- HybridModel.ReduceTimesClosedForm: the closed form is exact over reals only. Repeated floating-point subtraction of 0.3·share need not equal the one-step result bit for bit.
- Static pages, layout, header and footer, and one-line UI toggles such as card expand and menu toggle are left out. They hold no logic beyond the state machines above.
