# Prediction statistics: store and dashboard

This project models the statistics path of a fingerprint blood-group classifier. It has two parts.

- **The prediction service's statistics store** (`backend/main.py`). A module-level record starts empty: `total`, the `blood_groups` dictionary from label to count, the list of `confidences`, and `recent_predictions`. Each successful prediction turns the class index into a label through a fixed eight-entry table. It then updates the record in place: the total goes up by one, the label's count goes up by one (starting from 0), the confidence is appended, and the prediction is appended to the recent list, which is trimmed to its newest 50 entries. The `/stats` handler returns the four fields as they are.
- **The dashboard** (`frontend/src/components/Dashboard.jsx`). It keeps `stats`, `loading` and `error` and updates them on every poll. From the current snapshot it derives the label list and the count list of the distribution chart, a ten-bin confidence histogram, the average confidence of each label over the recent predictions, and a colour for each label.

Modules:

- `StatsData` (`stats_data.dfy`): the shared snapshot shape. `blood_groups` is a sequence of entries in key order. Python dicts and the keys of a JavaScript object with non-numeric keys both keep insertion order. The module defines the dictionary operations applied to it (`get`, item assignment, `Object.keys`, `Object.values`) and their lemmas.
- `Backend` (`backend_stats.dfy`): the class `PredictionStats`, whose methods change the store in place. A ghost `History` records every logged prediction. `Valid()` says each field is the function of that history that the logging code maintains: the count of each label, the labels in first-seen order, all confidences, and the last 50 predictions.
- `Dashboard` (`dashboard.dfy`): the derivations as functions. The histogram loop is a method over an array, proved against the function `Histogram`. The fetch state is the class `DashboardState` with `Begin`, `Succeed` and `Fail`. A few client methods show what sequences of poll outcomes leave on screen.
- `Wrappers` (`wrappers.dfy`): `Option`, for the dashboard's `null` snapshot.

Two behaviours of the polling code:

- The dashboard applies each poll's answer when it arrives, so an older answer that arrives last replaces a newer snapshot (`Dashboard.OverlappingPolls`).
- The component calls `setInterval` once per mount and clears it on unmount. Timers are left out.

## Model

| member | source | states |
|---|---|---|
| `Backend.ClassLabelsTable` | backend/main.py:33 | the label table is defined exactly on the indices 0..7, and it maps them to eight different labels |
| `Backend.PredictionStats.constructor` | backend/main.py:36-41 | the store starts valid, with nothing logged: total 0, no labels, no confidences, no recent predictions |
| `Backend.PredictionStats.LogPrediction` | backend/main.py:271-281 | keeps the store valid; total rises by exactly 1; the label's count becomes its old count (0 if absent) plus 1, and every other count is unchanged; a new label is added at the end of the key order, and an existing one keeps its place; `confidences` becomes old ++ [confidence]; the recent list becomes the last 50 of old ++ [new prediction] |
| `Backend.LogTracks` | backend/main.py:271-281 | the logging step maps a store consistent with a history `h` to one consistent with `h + [p]` (total, counts summing to the total, distinct keys in first-seen order, per-label counts, confidences, last 50 predictions) |
| `Backend.Consistent` | backend/main.py:271-281 | in every store that tracks a history (every store reached from the empty one by logging one prediction at a time), the counts sum to `total`, which equals the number of confidences; the recent list holds min(total, 50) entries whose confidences are the newest confidences in order; a label is a key exactly when its count is positive |
| `Backend.FirstSeenLabels` | backend/main.py:272 | the dictionary's key order lists exactly the labels predicted at least once, each once |
| `Backend.KeysStep` | backend/main.py:272 | logging a prediction extends the dictionary's key order exactly as it extends the labels in first-seen order |
| `Backend.CountsStep` | backend/main.py:272 | if every label's count equals its number of occurrences in the history, that stays true after logging one more prediction |
| `Backend.ConfidencesStep` | backend/main.py:273 | logging a prediction appends its confidence to the history's confidences |
| `Backend.ConfidencesOf` | backend/main.py:273 | the stored confidence list has one element per logged prediction, in logging order |
| `Backend.LastN` | backend/main.py:280-281 | trimming keeps min(\|s\|, n) elements, and they are a suffix of `s` |
| `Backend.AppendTrimmed` | backend/main.py:275-281 | appending to a buffer of at most 50 and trimming leaves at most 50 entries, and the last one is the new entry; below the cap the result is old ++ [new]; at the cap only the oldest entry is dropped |
| `Backend.LastNAppend` | backend/main.py:275-281 | appending and trimming the trimmed buffer gives the newest 50 of the whole history, so the buffer always holds the newest 50 predictions in order |
| `Backend.PredictionStats.Predict` | backend/main.py:266-302 | an index in the table logs one prediction with that index's label and answers it; an index outside the table answers 500 and leaves the store unchanged |
| `Backend.PredictionStats.Stats` | backend/main.py:307-314 | the snapshot is the four stored fields unchanged and it changes nothing; for a valid store its counts sum to its total, which equals the number of its confidences |
| `StatsData.Put` | backend/main.py:272 | item assignment keeps the size for an existing key and grows it by one for a new key |
| `StatsData.PutGet` | backend/main.py:272 | after `d[k] = v`, `k` reads as `v` and every other key reads as before |
| `StatsData.PutKeys` | backend/main.py:272 | item assignment appends the key when it is new and otherwise leaves the key order as it was |
| `StatsData.PutDistinct` | backend/main.py:272 | item assignment keeps the keys distinct |
| `StatsData.PutSum` | backend/main.py:272 | item assignment changes the sum of counts by the new value minus the key's old count |
| `StatsData.GetDefault` | backend/main.py:272 | `get(k, default)` reads the default for an absent key; for a present key it ignores the default and reads the count stored in that key's entry |
| `StatsData.Keys` | frontend/src/components/Dashboard.jsx:58 | `Object.keys` gives one key per entry |
| `StatsData.Values` | frontend/src/components/Dashboard.jsx:59 | `Object.values` gives one value per entry |
| `StatsData.KeysValuesAligned` | frontend/src/components/Dashboard.jsx:58-59 | the label list and the count list have one element per entry, in the entries' order: position i holds entry i's label and entry i's count; with distinct keys, the count at each position is what that label reads as |
| `Dashboard.BloodGroups` | frontend/src/components/Dashboard.jsx:58 | before the first snapshot there are no labels; afterwards one label per dictionary entry, in key order |
| `Dashboard.BloodCounts` | frontend/src/components/Dashboard.jsx:59 | before the first snapshot there are no counts; afterwards one count per dictionary entry, in key order |
| `Dashboard.ConfidenceList` | frontend/src/components/Dashboard.jsx:60 | before the first snapshot there are no confidences; afterwards the snapshot's confidence list |
| `Dashboard.Recent` | frontend/src/components/Dashboard.jsx:74 | before the first snapshot there are no recent predictions; afterwards the snapshot's recent list |
| `Dashboard.NoSnapshotViews` | frontend/src/components/Dashboard.jsx:58-74 | with no snapshot, labels, counts, confidences and recent predictions are empty, the histogram is ten zeros and the averages list is empty |
| `Dashboard.BinIndex` | frontend/src/components/Dashboard.jsx:65 | the bin is below 10; it is floor(c·10) for c < 1 and 9 for c = 1; bin b covers [b/10, (b+1)/10), and bin 9 also covers 1.0 |
| `Dashboard.ConfidenceBins` | frontend/src/components/Dashboard.jsx:63-67 | the loop over the confidences leaves in each bin the number of confidences whose bin it is |
| `Dashboard.HistogramTotal` | frontend/src/components/Dashboard.jsx:63-67 | the histogram has exactly 10 bins, and their sum is the number of confidences |
| `Dashboard.ExampleHistogram` | frontend/src/components/Dashboard.jsx:63-67 | confidences 0.9, 0.95 and 0.4 give two in bin 9, one in bin 4 and zero elsewhere |
| `Dashboard.Matching` | frontend/src/components/Dashboard.jsx:86 | the filtered list is no longer than the recent list and every element carries the label |
| `Dashboard.MatchingFilter` | frontend/src/components/Dashboard.jsx:86 | the filter keeps every recent prediction that carries the label, and takes nothing that is not a recent prediction; how many times each is kept is stated by `Dashboard.MatchingMultiset` |
| `Dashboard.MatchingMultiset` | frontend/src/components/Dashboard.jsx:86 | the filter keeps each prediction carrying the label exactly as many times as it occurs in the recent list, and no prediction with another label, so the list averaged is fixed as a multiset |
| `Dashboard.MatchingEmpty` | frontend/src/components/Dashboard.jsx:86-87 | a label has no matching recent predictions exactly when no recent prediction carries it |
| `Dashboard.SumConfidence` | frontend/src/components/Dashboard.jsx:88 | the sum of n confidences lies between 0 and n |
| `Dashboard.AvgConfidencePct` | frontend/src/components/Dashboard.jsx:86-89 | a label with no recent predictions averages 0; otherwise the value divided by 100 is the mean of the matching confidences (their sum over their number); it always lies in [0, 100] |
| `Dashboard.GroupAvgConfidence` | frontend/src/components/Dashboard.jsx:85-90 | one average per label, same length and same order as the label list |
| `Dashboard.NoRecentAveragesZero` | frontend/src/components/Dashboard.jsx:85-87 | with no recent predictions every label averages 0 |
| `Dashboard.MatchingCount` | frontend/src/components/Dashboard.jsx:86 | the number of predictions averaged for a label is the number of predictions carrying it |
| `Dashboard.AveragesCoverCounts` | frontend/src/components/Dashboard.jsx:85-89 | in a snapshot of the store taken before it has logged more than 50 predictions, each label is averaged over exactly as many predictions as its count |
| `Dashboard.ExampleLabels` | frontend/src/components/Dashboard.jsx:58-59 | for the example dictionary {A+: 2, O-: 1}, the labels are [A+, O-] and the counts [2, 1] |
| `Dashboard.ExampleMatching` | frontend/src/components/Dashboard.jsx:86-89 | for two A+ predictions (0.9, 0.95) and one O- (0.4), A+ averages 92.5 and O- averages 40.0 |
| `Dashboard.ExampleAverages` | frontend/src/components/Dashboard.jsx:85-90 | for the same example, the averages list is [92.5, 40.0], in label order |
| `Dashboard.ColorOf` | frontend/src/components/Dashboard.jsx:172 | a label among the eight `BLOOD_COLORS` keys gets its entry; the result is `#ccc` exactly when the label is not one of them |
| `Dashboard.Colors` | frontend/src/components/Dashboard.jsx:191 | one colour per label, in label order; unknown labels are kept, not filtered |
| `Dashboard.TimelineColors` | frontend/src/components/Dashboard.jsx:209-215 | one colour per recent prediction, in order, with the same fallback |
| `Dashboard.ServiceLabelsHaveColors` | frontend/src/components/Dashboard.jsx:20-29 | every label of the service's class table has its own colour, so the fallback is only for labels the service never produces |
| `Dashboard.DashboardState.constructor` | frontend/src/components/Dashboard.jsx:32-34 | at mount there is no snapshot, `loading` is true and `error` is empty |
| `Dashboard.DashboardState.Begin` | frontend/src/components/Dashboard.jsx:40-41 | a poll start sets `loading` and clears `error`, keeping the snapshot |
| `Dashboard.DashboardState.Succeed` | frontend/src/components/Dashboard.jsx:44-49 | a successful poll replaces the snapshot and ends loading, leaving `error` as it was |
| `Dashboard.DashboardState.Fail` | frontend/src/components/Dashboard.jsx:46-49 | a failed poll keeps the previous snapshot, sets `error` to `Could not load stats.` and ends loading |
| `Dashboard.SuccessThenFailure` | frontend/src/components/Dashboard.jsx:38-53 | after a success and then a failed poll, the last good snapshot is still shown, with the error and without loading |
| `Dashboard.FailureFirst` | frontend/src/components/Dashboard.jsx:38-52 | a failure before any success leaves no snapshot and shows the error |
| `Dashboard.OverlappingPolls` | frontend/src/components/Dashboard.jsx:38-53 | when two overlapping polls answer in reverse order, the older snapshot, applied last, is shown |
| `Dashboard.FailureOverlapsSuccess` | frontend/src/components/Dashboard.jsx:38-53 | when the first of two overlapping polls fails after the second started and the second succeeds, the new snapshot is shown together with the error |

## Left out

- Image decoding, the fingerprint heuristic, Grad-CAM and base64 encoding. These are floating-point image processing and library calls. `Predict` starts from the class index and confidence the classifier produced.
- Model loading, `model.predict` and `argmax`. The class index and the confidence are parameters.
- Flask routing, CORS, the preflight answer and the 400 answers for a missing or empty upload. This is HTTP plumbing.
- The exception text in the 500 answer. Only the status is modelled.
- The visual explanation after logging: `generate_gradcam` and `encode_image_to_base64` catch their own errors and return `None` (backend/main.py:111-113, 132-134), so `predict` still answers with the prediction and `xai_available` false. The explanation fields are not part of `PredictResponse`.
- The recent entry's timestamp comes from the clock. It is a parameter of `LogPrediction` and `Predict`.
- JSON encoding on the wire. The web framework may sort the keys of `blood_groups` when it serialises them. The dashboard derivations hold for whatever key order the snapshot carries.
- `fetch`, `setInterval`/`clearInterval`, the unmount cleanup and the asynchronous wait. Each poll is modelled only as `Begin` followed later by `Succeed` or `Fail`. React's batching of state updates is not modelled.
- The timeline auto-scroll effect, the chart option objects, pixel sizes and the unused `COLORS` and `groupColors` constants.
- `toFixed(1)` and `Math.round` display rounding. `AvgConfidencePct` is the exact mean as a percentage, not rounded to one decimal.
- Floating point. Confidences are exact reals in [0, 1], so `BinIndex` is exact where `c * 10` in binary floating point could round across a bin boundary.
- Dashboard.AvgConfidencePct: does not model the `|| 0` fallback for a missing or non-numeric confidence, because every recent prediction the store produces carries a confidence in [0, 1], and on that range `c || 0` is `c`.
- Dashboard.ColorOf: treats `BLOOD_COLORS` as a map of its eight own entries. In JavaScript a label that names an inherited `Object` property (`constructor`, `toString`, `valueOf`, `hasOwnProperty`, `__proto__`) reads that property, which is truthy, so it does not get `#ccc`. The service only produces the eight labels of its class table (`ServiceLabelsHaveColors`).
- Backend.PredictionStats.LogPrediction: concurrent requests are not modelled. `app.run(debug=True)` (backend/main.py:318) serves requests on several threads, and lines 271-281 take no lock, so two predictions at once can lose an increment or an append. The model runs each logging block as one step.
- Backend.Consistent: holds for stores built by one logging step at a time. Interleaved concurrent logging can break it, and that is not modelled.
- Backend.PredictionStats.Stats: a `/stats` request can run in the middle of another thread's logging block and return a store that is not consistent. The model reads the store between logging steps only.
- Confidences outside [0, 1]. Above 1, `Math.min(9, Math.floor(c * 10))` clamps the confidence into bin 9, as for 1.0. Below 0, or for NaN, the code increments a key outside 0..9, so that confidence is missing from the ten bins. The `Confidence` type excludes both.
