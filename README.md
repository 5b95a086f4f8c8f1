# Umbrella predictor — feature preparation and response selection in Dafny

The service answers `GET /predict?city=…` with a rain forecast. It geocodes the city, fetches the current weather and turns it into one feature row for a pre-trained classifier. It then reports the classifier's verdict with a fixed description. This project models the deterministic part of that pipeline in `app.py`:

- `degrees_to_cardinal` (module `Compass`): a wind bearing in degrees becomes one of 16 compass points. The index is `int((d + 11.25) / 22.5) % 16`. Python's truncating `int()` is written out as `Trunc`; for the divisor 16, Python's `%` and Dafny's `%` agree on every sign, so `CardinalIndex` uses Dafny's.
- the Cloud9am expression `round(cloud_cover / 100 * 8)` (module `Oktas`), with Python 3's round-half-to-even rounding.
- `prepare_data` (modules `Frame` and `Features`). It reads the `current` block of the weather answer and builds the one-row record. MinTemp and Temp9am both come from the temperature, followed by humidity, pressure, wind speed, Cloud9am and WindDir9am. `pd.get_dummies` then one-hot encodes the record, and `reindex(columns=model_columns, fill_value=0)` aligns it on the classifier's column list. A row is a sequence of named cells.
- the branch structure of `predict` (module `Predict`): 404 for a falsy latitude, 500 for a falsy weather answer or a raised exception, otherwise the forecast. The geocoder, the weather service and the scaler/classifier are function parameters.

`FeatureRow` ties the pipeline (record, then get_dummies, then reindex) to `FeatureValue`. `FeatureValue` is an independent, column-by-column statement of what the classifier receives.

Three behaviours of the code are worth stating up front:

- **Compass index: truncation, not floor.** A floor-based index would make the label periodic for every bearing, but app.py:24 uses `int()`, which truncates toward zero. Truncation and floor agree for every bearing from -11.25 up, so periodicity is proved there (`Compass.Periodic`). Below -11.25 they differ, except where (d + 11.25) / 22.5 is a whole number. `Compass.TruncationBreaksPeriodicity` shows -20 labelled N while 340 is NNW.
- **One-hot columns.** `get_dummies` on the one-row record creates only the indicator of the direction present. Other direction columns exist only if `model_columns` names them, and reindexing fills them with 0 (`Features.WindIndicatorValue`).
- **Latitude 0.** A geocoded latitude of exactly 0 is falsy in Python, so a city on the equator is answered as not found (`Predict.EquatorIsNotFound`).

## Model

| member | source | states |
|---|---|---|
| `Compass.Trunc` | app.py:24 | `int()` on a float truncates toward zero: the result is within one of x, on the side of 0 |
| `Compass.RawIndex` | app.py:24 | `int((d + 11.25) / 22.5)` is the floor of the quotient from -11.25 on, and minus the floor of its negation below |
| `Compass.CardinalIndex` | app.py:24-25 | the wrapped index `ix % 16` is always a valid index into the 16-entry list |
| `Compass.DegreesToCardinal` | app.py:21-25 | every bearing, of any sign, is labelled with one of the 16 compass points |
| `Compass.DirectionsDistinct` | app.py:22-23 | the 16 labels are pairwise different |
| `Compass.SectorLabel` | app.py:22-25 | every bearing in [22.5n - 11.25, 22.5n + 11.25), n >= 0, gets index n mod 16 and label `dirs[n % 16]`; so 22.5k gets `dirs[k]` |
| `Compass.NorthWraps` | app.py:22-25 | both [0, 11.25) and [348.75, 360) are labelled N |
| `Compass.Periodic` | app.py:24-25 | for every bearing d >= -11.25, d + 360 gets the same label as d |
| `Compass.LabelIffSector` | app.py:22-25 | on [0, 360), label k is produced if and only if the bearing lies in sector k (for N, either end of the circle) |
| `Compass.TruncationBreaksPeriodicity` | app.py:24 | with truncation, -20 is labelled N while -20 + 360 is NNW |
| `Oktas.RoundHalfEven` | app.py:50 | `round()` gives an integer within 0.5 of x, and an even one when x is exactly halfway |
| `Oktas.RoundHalfEvenUnique` | app.py:50 | those two properties determine the rounded value |
| `Oktas.RoundHalfEvenMonotone` | app.py:50 | rounding preserves order |
| `Oktas.RoundOfInteger` | app.py:50 | an integer rounds to itself |
| `Oktas.CloudOktas` | app.py:50 | Cloud9am is within half an okta of cover × 8 / 100 |
| `Oktas.CloudOktasRange` | app.py:50 | for cover in [0, 100], Cloud9am lies in 0..8 |
| `Oktas.CloudOktasEnds` | app.py:50 | cover 0 gives 0 oktas and cover 100 gives 8 |
| `Oktas.CloudOktasMonotone` | app.py:50 | more cloud cover never gives fewer oktas |
| `Oktas.CloudOktasTies` | app.py:50 | halfway covers round to the even count: 6.25 % gives 0 and 18.75 % gives 2 |
| `Frame.IndexOf` | app.py:55 | the position of the first column with a given label, or the row length when there is none |
| `Frame.DummyName` | app.py:54 | an indicator is named `<column>_<category>`: the column label, one `_`, then the category |
| `Frame.DummyNameInjective` | app.py:54 | indicators of one column for different categories have different names |
| `Frame.Kept` | app.py:54 | the columns get_dummies leaves alone contain no categorical column |
| `Frame.Dummies` | app.py:54 | the columns get_dummies adds are all set indicators |
| `Frame.KeptMembers` | app.py:54 | a column survives get_dummies if and only if it is in the row and is not categorical |
| `Frame.DummiesMembers` | app.py:54 | an indicator column is produced if and only if it is set and named `<column>_<category>` after a categorical column of the row |
| `Frame.GetDummies` | app.py:54 | after get_dummies no categorical column remains |
| `Frame.GetDummiesNoCategory` | app.py:54 | a row without categorical columns passes through get_dummies unchanged |
| `Frame.GetDummiesAppend` | app.py:54 | get_dummies works column by column: kept columns and indicators of a concatenation are the concatenations |
| `Frame.Reindex` | app.py:55 | the result's labels are exactly the requested columns, in order; a present column keeps its cell and a missing one is 0 |
| `Features.Subscript` | app.py:46-51 | `j[key]` succeeds exactly on a dict holding the key and yields its value; otherwise KeyError on a dict, TypeError on anything else |
| `Features.NumberAt` | app.py:46-51 | a reading succeeds exactly when the dict holds the key with a number, and yields that number; a present non-number is `NotNumeric` |
| `Features.NumericColumns` | app.py:47-50 | the six numeric entries of the record are numbers, and MinTemp and Temp9am both hold the temperature |
| `Features.RawRecord` | app.py:47-53 | the record has seven entries, of which only the last, WindDir9am, is categorical and holds the compass point of the wind bearing |
| `Features.ReadCurrent` | app.py:46-51 | the readings are taken from the `current` dict; success means the answer carries exactly those numbers; failure means it carries none; a non-dict answer or a missing `current` gives the matching error |
| `Features.ReadCurrentOfAnswer` | app.py:46-51 | an answer whose `current` dict holds the six readings, with any other keys beside them, yields exactly those readings |
| `Features.EncodedRecord` | app.py:47-54 | after get_dummies the record is its six numeric columns followed by one set indicator `WindDir9am_<point>` |
| `Features.EncodedNamesUnique` | app.py:47-54 | the encoded record's labels are the seven expected ones and are distinct, so reindexing is defined |
| `Features.OneHotWindDirection` | app.py:51-54 | the encoded record has exactly one `WindDir9am_*` column, the wind's compass point, set; the raw WindDir9am column is gone |
| `Features.FeatureRow` | app.py:45-55 | the feature row's labels are exactly `model_columns`, in order, and each cell is the FeatureValue of its column: both temperatures, the pass-through readings, the oktas, the set indicator, and 0 for anything else |
| `Features.PrepareData` | app.py:45-56 | prepare_data fails exactly when the answer carries no readings; on success the features are aligned on the columns and hold FeatureValue for the readings, and the returned record is the raw record of those readings |
| `Features.RecordTemperature` | app.py:83 | `raw['Temp9am'][0]` is the number held by the record's (unique) Temp9am entry |
| `Features.RecordTemperatureIsReading` | app.py:48 | MinTemp and Temp9am both hold the temperature, and the record's Temp9am entry is that temperature |
| `Features.WindIndicatorValue` | app.py:51-55 | the indicator column of compass point k is set when k is the wind's point and 0 otherwise |
| `Features.OvercastNortherly` | app.py:45-55 | for 10 °C, 80 %, 1013 hPa, 15 km/h, wind from 0° and 100 % cloud: Cloud9am is 8, WindDir9am_N is set, the other 15 indicators are 0, Temp9am is 10 |
| `Predict.City` | app.py:67 | the city looked up is the `city` argument when given, Moscow otherwise |
| `Predict.LatitudeTruthy` | app.py:70 | the latitude passes `if not lat` exactly for a match whose latitude is non-zero |
| `Predict.Truthy` | app.py:73 | a weather answer is falsy exactly when it is null, false, 0, an empty string, an empty list or an empty dict |
| `Predict.Description` | app.py:86 | the description is the rain message exactly when rain is predicted, and the no-rain message otherwise |
| `Predict.Predict` | app.py:65-89 | errors are 404 or 500; 404 (city not found) exactly when the latitude is falsy; a forecast names the geocoded city and its description follows the predicted class |
| `Predict.PredictOutcome` | app.py:70-89 | for a found city: a falsy weather answer gives 500 with the no-data message; an answer without readings gives 500 with the raised error; otherwise the classifier's answer on FeatureRow of the readings decides between 500 with its error and the forecast (temp = temperature, rain = class non-zero, prob = probability × 100) |
| `Predict.EquatorIsNotFound` | app.py:70 | a match at latitude 0 is answered 404 |
| `Predict.DefaultsToMoscow` | app.py:67 | without a `city` argument the handler answers as for Moscow |
| `Predict.DescriptionIgnoresProbability` | app.py:78-86 | classifiers that agree on the predicted class give the same status, rain flag and description, whatever their probabilities |

## Left out

- Flask routing, `render_template`, `jsonify`, HTTP status plumbing and `app.run` (app.py:60-63, app.py:91-92) are web-framework I/O. A response is a datatype carrying its status.
- `get_coordinates` and `get_weather_data` (app.py:27-43) are outbound HTTP calls. They are the parameters `geocode` and `fetchWeather`. All failures of the geocoding call collapse into `NoMatch`, and a failed weather call is the JSON `null`.
- Loading the model, scaler and column list with `joblib`, and `exit()` when a file is missing (app.py:10-18), are file I/O and process control. `model_columns` is a parameter.
- `scaler.transform`, `model.predict` and `model.predict_proba` (app.py:77-79) are opaque trained artifacts. They are the parameter `classify`, which returns the class and probability or the text of the exception raised.
- Predict: the `prob` field is the probability × 100 without the one-decimal rounding `round(prob * 100, 1)`. That rounding is floating-point presentation.
- Predict: the classifier's label is assumed numeric (`Classification.predicted` is an `int`, and the rain flag is `predicted != 0`). For a string label such as "No", Python's `bool(pred)` would be true.
- Predict: an exception is reported by its kind and key (`Failure`) or by the classifier's message, not by the exact `str(e)` text Python would produce.
- Features.NumberAt, Features.ReadCurrent: every one of the six readings must be a JSON number; anything else is the error `NotNumeric`. In the source, a non-number temperature, humidity, pressure or wind speed reaches the DataFrame, where get_dummies would encode a string value and a boolean counts as a number. A string or null cloud cover or wind direction raises right away; a boolean one does not, since Python computes `True / 100 * 8` and `True + 11.25`. Through these, `Features.PrepareData` and `Predict.Predict` answer 500 with `Raised(NotNumeric(..))` for such an answer, where the source may give a forecast.
- Arithmetic is exact over `real`. The IEEE-double results of `/ 22.5`, `/ 100 * 8` and `+ 11.25` may differ from the exact values at bucket and rounding boundaries.
- JSON `NaN` and `Infinity`, which Python's `json` decoder accepts, have no counterpart in `real`. On them `int()` (app.py:24) and `round()` (app.py:50) raise, so the source answers 500 (app.py:88-89), whereas the model has no such reading.
- Indicator columns are booleans (pandas 2 `get_dummies`). Older pandas produce the integer 1; the scaler reads both as 1.
- Frame.Reindex requires distinct labels in the row, as pandas refuses to reindex a frame with repeated labels. The record built by prepare_data always has distinct labels (`Features.EncodedNamesUnique`).
- pandas beyond the `get_dummies` and `reindex` behaviour used on this one-row record: dtypes, NaN handling and multi-row frames.
