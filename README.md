# Earthquake magnitude demo — a verified model

This project models the two computational parts of an earthquake-magnitude web demo.

- **The magnitude simulator** (`js/model.js`). A form supplies latitude, longitude and depth. A guard rejects NaN and out-of-range values. The demo claims a neural network predicts the magnitude, but the shown value actually comes from a randomised formula:
  - a depth factor, `min(1, depth/100) * 2`;
  - a boost inside three rectangular "seismic zones";
  - a uniform spread and a symmetric jitter;
  - a clamp to [4, 9].
  
  The result box then shows a severity interpretation and a circle colour, each chosen from a threshold ladder.
- **The dataset view** (`docs/js/visualization.js`). A page-wide buffer of earthquake rows is filled either by a CSV parse or by a generator of one hundred synthetic events, which are sorted newest first. Visualising the buffer shows two things:
  - a table of the first 50 rows;
  - a histogram of magnitudes in half-unit bins, listed in ascending bin order and coloured by the same severity ladder.

Every `Math.random()` draw is a parameter in [0, 1), and the clock is a parameter counting whole milliseconds. The mutable module state is modelled as classes, and the step-by-step code as methods with loops:
- `MagnitudeModel` holds the scaler of `js/model.js`.
- `EarthquakeData` holds the dataset buffer of `docs/js/visualization.js`.

Files:
- `wrappers.dfy`: Option and Result.
- `severity.dfy`: the two magnitude ladders.
- `simulator.dfy`: `js/model.js`.
- `records.dfy`: rows and the table slice.
- `ordering.dfy`: ascending order of bins.
- `histogram.dfy`: the magnitude chart.
- `sample.dfy`: the synthetic dataset.
- `dataset.dfy`: the buffer and its three operations.

Two consequences of the code are worth stating outright:
- For the Tokyo-like input (35, 139, 10) the magnitude before jitter lies in [4.2, 6.7). The spread term is `4.0 + u * 2.5 + 0.2`, and with u < 1 it stays below 6.7 (`TokyoScenario`).
- A `Date` built from a number keeps only whole milliseconds. So `now - u * 30 days` with u close to 1 truncates to exactly `now - 30 days`, and the earliest possible event time is that instant (`EventTime`, `EarliestEventTime`).

## Model

| member | source | states |
|---|---|---|
| Severity.Interpretation | js/model.js:114-124 | the text is the message of the band the magnitude lies in (below 5, [5,6), [6,7), [7,8), 8 and above) |
| Severity.InterpretationLadder | js/model.js:114-124 | every magnitude lies in some band, and the interpretation is a band's message exactly when the magnitude lies in that band |
| Severity.MessagesDistinct | js/model.js:114-124 | the five interpretation texts are pairwise different, so the text identifies the band |
| Severity.ColourOf | js/model.js:127-135 | the circle is purple exactly when the magnitude is 7 or more |
| Severity.ColourAgreesWithBand | docs/js/visualization.js:177-183 | the colour ladder agrees with the interpretation bands: green for Light, orange for Moderate, red for Strong, purple for Major and Great |
| Severity.HexDistinct | js/model.js:127-135 | the four colour codes are pairwise different |
| Simulator.Validate | js/model.js:60-78 | success exactly when all three fields are numbers in range (latitude and longitude bounds closed, depth at least 0), with the parsed location; otherwise the first failing check in the order NaN, latitude, longitude, depth |
| Simulator.ValidateAcceptsBoundaries | js/model.js:65-73 | the poles, the antimeridian and zero depth are accepted |
| Simulator.NormalizeFeatures | js/model.js:47-53 | min-max scaling is inverted by denormalising; in-range values map into [0, 1]; depths above the maximum map above 1 |
| Simulator.NormalizeMonotone | js/model.js:47-53 | scaling preserves the order of each feature |
| Simulator.StandardScalerRanges | js/model.js:36-39 | the installed bounds are non-degenerate and map every accepted latitude and longitude into [0, 1] and depths beyond 700 km above 1 |
| Simulator.DepthFactor | js/model.js:92 | the factor is in [0, 2] for non-negative depths, rises linearly (depth / 50) up to 100 km and is 2 from 100 km on |
| Simulator.InSeismicZone | js/model.js:94-98 | each of the three open rectangles (Pacific rim of the Americas, Alpide belt, Mid-Atlantic ridge) is in zone; any in-zone point lies within longitude (-180, 150) and latitude (-60, 70), west of -25 or inside the Alpide band |
| Simulator.OutsideAllZones | js/model.js:94-98 | nothing at or beyond latitude 70 or -60 or longitude 150 is in zone, nor anything in the gaps between the rectangles: longitude -65 to -45, longitude -25 to -10, or east of -25 outside latitudes (20, 45) |
| Simulator.BaseMagnitude | js/model.js:100-104 | in zone the value is in [4 + df, 6.5 + df); outside it is in [3 + df/2, 4.5 + df/2) |
| Simulator.Jitter | js/model.js:106 | the jitter is in [-0.4, 0.4) and zero for a draw of one half |
| Simulator.Clamp | js/model.js:108 | the result is in [4, 9], equals the input on [4, 9], and is 4 below and 9 above |
| Simulator.SimulatedMagnitude | js/model.js:92-108 | for an accepted depth and draws in [0, 1) the shown magnitude is in [4, 8.9), and below 5.9 outside the zones |
| Simulator.PreClampRange | js/model.js:92-106 | before the clamp the magnitude is in [2.6, 8.9), and below 5.9 outside the zones, so the upper clamp never applies |
| Simulator.OutOfZoneAtMostModerate | js/model.js:94-124 | outside the zones the interpretation is Light or Moderate whatever the draws |
| Simulator.TokyoScenario | js/model.js:92-101 | (35, 139, 10) is in zone with depth factor 0.2, and its magnitude before jitter is in [4.2, 6.7) |
| Simulator.MagnitudeModel.constructor | js/model.js:1-2 | before loading no scaler is installed, and the model is valid (any installed scaler has a positive span per feature) |
| Simulator.MagnitudeModel.LoadModel | js/model.js:4-45 | a successful build installs the bounds [-90, -180, 0] to [90, 180, 700]; a caught failure leaves the scaler unchanged; the model stays valid |
| Simulator.MagnitudeModel.PredictMagnitude | js/model.js:55-135 | a guard failure is reported as that error; without a scaler the prediction fails; otherwise it succeeds with the simulated magnitude, which is in [4, 8.9), together with that magnitude's interpretation and colour |
| Records.TableRows | docs/js/visualization.js:84 | the table shows a prefix of the rows: all of them when there are fewer than 50, otherwise exactly 50 |
| Ordering.Insert | docs/js/visualization.js:169 | inserting a new key into an ascending sequence keeps it ascending and adds exactly that key |
| Ordering.SortAscending | docs/js/visualization.js:169 | distinct keys come out strictly ascending with the same elements |
| Ordering.AscendingUnique | docs/js/visualization.js:169 | two strictly ascending sequences with the same elements are equal, so the sorted key order is determined |
| Histogram.BinOf | docs/js/visualization.js:164 | the bin is a multiple of 0.5 and the magnitude lies in [bin, bin + 0.5) |
| Histogram.BinUnique | docs/js/visualization.js:164 | that bin is the only multiple of 0.5 with this property |
| Histogram.BinOfGridPoint | docs/js/visualization.js:164 | a magnitude on a bin boundary belongs to the bin starting there |
| Histogram.AppendRow | docs/js/visualization.js:162-167 | one more row adds one to its bin's count and its bin to the bin set exactly when its magnitude is a number |
| Histogram.CreateMagnitudeChart | docs/js/visualization.js:158-185 | the bars are the histogram of the rows: strictly ascending bins, exactly the occupied bins, each bar labelled [b, b + 0.5), with b's count and b's colour; every bar is at least 1 high and the heights add up to the number of numeric magnitudes |
| Histogram.CountPositive | docs/js/visualization.js:162-167 | every listed bin holds at least one row |
| Histogram.SkipsNonNumeric | docs/js/visualization.js:163 | a row whose magnitude is not a number changes neither the numeric total nor the chart |
| Histogram.HistogramTotal | docs/js/visualization.js:162-170 | any histogram's heights add up to the number of rows with a numeric magnitude |
| Histogram.HistogramUnique | docs/js/visualization.js:169-170 | a dataset has exactly one histogram |
| Histogram.HistogramExample | docs/js/visualization.js:158-183 | magnitudes 4.2, 4.6, 5.9 and 6.1 chart as the bars 4.0-4.5, 4.5-5.0 (green), 5.5-6.0 (orange), 6.0-6.5 (red), one each, and as nothing else |
| SampleData.TruncateMs | docs/js/visualization.js:28 | the millisecond count truncates toward zero, staying within one millisecond of the input |
| SampleData.EventTime | docs/js/visualization.js:28 | an event time lies in [now - 30 days, now] |
| SampleData.EarliestEventTime | docs/js/visualization.js:28 | for a clock at least thirty days past the epoch, a draw half a millisecond short of 1 gives exactly now - 30 days, so the lower end is reachable |
| SampleData.Coordinates | docs/js/visualization.js:30-42 | each region places the event inside that region's latitude and longitude rectangle |
| SampleData.DrawProduct | docs/js/visualization.js:44-46 | a product of two draws is a draw no larger than either |
| SampleData.SampleMagnitude | docs/js/visualization.js:44 | the magnitude is in [4, 9) and exceeds 4 by at most 5 times the first draw |
| SampleData.SampleDepth | docs/js/visualization.js:46 | the depth is in [0, 200) and at most 200 times the draw |
| SampleData.MakeQuake | docs/js/visualization.js:28-54 | every generated event has an instant time in the past thirty days, a position inside one of the three region rectangles, and a magnitude in [4, 9) and a depth in [0, 200) |
| SampleData.Generated | docs/js/visualization.js:27-55 | the loop generates one event per iteration |
| SampleData.SortNewestFirst | docs/js/visualization.js:57 | the rows end up ordered newest first by `TimeKey`, the instant `new Date(x.Time)` denotes, and are a permutation of the rows before |
| SampleData.InsertNewest | docs/js/visualization.js:57 | one insertion step extends the newest-first prefix by one row, permuting only that prefix and leaving every later row in place |
| SampleData.GenerateSample | docs/js/visualization.js:24-57 | exactly one hundred events, newest first, each within the sample ranges and inside one of the three region rectangles, and a permutation of the events in generation order |
| Dataset.EarthquakeData.constructor | docs/js/visualization.js:1 | the dataset starts empty |
| Dataset.EarthquakeData.CompleteParse | docs/js/visualization.js:8-13 | a parse result with at least one row replaces the dataset; an absent or empty result leaves it as it was |
| Dataset.EarthquakeData.LoadSampleData | docs/js/visualization.js:21-59 | afterwards the dataset is the sorted sample: one hundred events, newest first, within the ranges and regions, a permutation of the generated events |
| Dataset.EarthquakeData.Visualize | docs/js/visualization.js:67-78 | an empty dataset yields the no-data alert and nothing else; otherwise the table holds the leading rows and the chart is the dataset's histogram |

## Left out

- The TensorFlow.js network (its layers, compile, the `tensor2d` input) is not modelled. Its output is never used. `LoadModel` takes whether building it succeeded as a parameter.
- The DOM is not modelled: reading form fields, alerts, spinners, button states, the result box and table markup. Errors come back as values instead.
- The one-second `setTimeout` delays and the asynchrony of `predictMagnitude` and `loadSampleData` are not modelled.
- Dataset.EarthquakeData.LoadSampleData: it only replaces the buffer and does not itself visualise. On the page, the delayed callback then calls `visualizeData`, which is `Visualize` here.
- `createHeatmap` and the rest of the Plotly layout are not modelled; they are presentation only.
- Number formatting (`toFixed`, `toLocaleString`) and the bar label strings are not modelled. A bar keeps its bounds as numbers.
- CSV parsing (`Papa.parse`) is not modelled. Its result arrives in `CompleteParse` as an optional sequence of rows, and its error callback is an alert only.
- `parseFloat` on the form text is not modelled. A field arrives already parsed, as a number or NaN.
- Arithmetic is exact: IEEE-754 doubles, their rounding, and infinities are not modelled. Neither are NaN or infinite magnitudes in CSV rows, which `typeof` calls numbers.
- `Time` is kept as the millisecond count the ISO string denotes. The ISO formatting (`toISOString`) is not modelled.
- SampleData.SortNewestFirst: the library sort is stable. The insertion sort keeps equal times in order, but that is not proved; only the order and the permutation are.
- SampleData.GenerateSample: every sample time is an instant, so sorting by `TimeKey` is sorting by time. Rows without an instant (never produced here) would sort as time 0.
- Histogram.CreateMagnitudeChart: bins are numbers. The string form of object keys and the `parseFloat` back are not modelled; both are exact for multiples of 0.5.
- `docs/js/app.js`, `js/map.js` and the page markup are not part of this model.
