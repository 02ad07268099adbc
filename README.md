# Weather app: condition selectors and forecast series

A Dafny model of the logic inside a single-screen weather application
(`weather_app.py`). The application fetches current weather and a 5-day
forecast for a city, averages the readings of two providers, and shows them
with a background image, an icon and a chart. The logic modelled here is:

- **The background selector** `get_bg_image` (`Conditions.BackgroundImage`).
  It lower-cases the provider's free-text condition and tests keywords in a
  fixed order: "sunny"/"clear", "cloud", "rain"/"drizzle", "snow". The first
  match picks one of four images. Otherwise it picks `images/default.jpg`.
- **The icon selector** `get_icon` (`Conditions.Icon`). It tests the same
  keywords in the same order, then "mist"/"fog". Its fallback is the cloud
  icon.
- **The forecast series** (`Forecast.ForecastSeries`). This loop builds the
  chart's `dates` and `temps` lists from the forecast days. The temperature
  is `avgtemp_c` or `avgtemp_f`, chosen by whether the unit radio choice
  starts with "Celsius".
- **The Celsius to Fahrenheit conversion** `c * 9/5 + 32`
  (`Units.CelsiusToFahrenheit`). It is applied to the secondary provider's
  Celsius reading.

Module layout:

- `text.dfy` (`Text`): ASCII lower-casing, and the substring test behind
  Python's `in`. The test is proved equal to "occurs at some index".
- `conditions.dfy` (`Conditions`): the two selectors, written as the source
  writes them. It also holds a table-driven reference: categories, their
  keywords, and the first category in a priority list that the text
  mentions.
- `condition_laws.dfy` (`ConditionLaws`): properties of the selectors.
  Each selector equals the reference. The lemmas cover first-match-wins, one
  iff per result, case-insensitivity, and where the two selectors agree.
- `units.dfy` (`Units`): the conversion, with its fixed points,
  monotonicity and inverse.
- `forecast.dfy` (`Forecast`): the forecast loop, as a method with a loop
  and invariants.

The code repeats the keyword tests in two separate selectors. Only the
icon selector has a mist/fog branch, and their fallbacks differ. The model
keeps the two selectors as the code writes them. `ConditionLaws.SharedClassifier`
proves that one classification, followed by two lookup tables, gives the
same results as both selectors. `ConditionLaws.SelectorsAgree` states
exactly where the two selectors agree.

## Model

| member | source | states |
|---|---|---|
| Text.Lower | weather_app.py:15 | lower-casing keeps the length, maps each character through ASCII case folding, and leaves no upper-case ASCII letter |
| Text.LowerIdempotent | weather_app.py:29 | lower-casing an already lower-cased condition changes nothing |
| Text.Contains | weather_app.py:16-38 | the keyword test `k in condition`: it holds whenever the text starts with the keyword, and only when the keyword is no longer than the text |
| Text.ContainsIff | weather_app.py:16 | the keyword test `k in condition` holds exactly when `k` occurs at some index of the text |
| Text.ContainsInContext | weather_app.py:20 | a keyword surrounded by any other text is still found |
| Conditions.BackgroundImage | weather_app.py:14-25 | the background selector is total and always returns one of the five fixed image paths |
| Conditions.Icon | weather_app.py:28-41 | the icon selector is total and always returns one of the five fixed icon paths |
| Conditions.FirstMentioned | weather_app.py:30-39 | the first category in a priority list that the text mentions: it is in the list and mentioned, and the result is None exactly when no category in the list is mentioned |
| Conditions.FirstMentionedWins | weather_app.py:16-23 | first match wins: a mentioned category with no mentioned category ahead of it is the one chosen |
| ConditionLaws.BackgroundImageByPriority | weather_app.py:14-25 | the background is the image of the first category mentioned in the order sunny/clear, cloud, rain/drizzle, snow, or the default image when none is mentioned |
| ConditionLaws.IconByPriority | weather_app.py:28-41 | the icon is the icon of the first category mentioned in that order extended by mist/fog, or the cloud icon when none is mentioned |
| ConditionLaws.SharedClassifier | weather_app.py:14-41 | one classification over the order sunny/clear, cloud, rain/drizzle, snow, mist/fog, read through two tables, gives both selectors; the background table maps mist/fog and no match to the default image |
| ConditionLaws.SunnyWins | weather_app.py:16-31 | text mentioning sunny or clear gets the sunny background and the clear icon, whatever other keywords it contains |
| ConditionLaws.BackgroundImageIff | weather_app.py:16-25 | each background image is returned exactly when its category is mentioned and no earlier one is; the default exactly when none of the six keywords occurs |
| ConditionLaws.IconIff | weather_app.py:30-41 | each icon is returned exactly when its category is the first one mentioned; mist only when none of the earlier keywords occurs; the cloud icon for cloud text and for text with none of the seven keywords |
| ConditionLaws.CaseInsensitive | weather_app.py:15-29 | two conditions that lower-case to the same text get the same background and the same icon |
| ConditionLaws.LowerCaseInput | weather_app.py:15-29 | each selector gives the same result for a condition and for its lower-cased form |
| ConditionLaws.SelectorsAgree | weather_app.py:14-41 | the selectors agree on the category: sunny with clear, cloudy with clouds, rainy with rain, snowy with snow; the default background goes only with the mist or cloud icon, and the cloud icon only with the cloudy or default background |
| Units.CelsiusToFahrenheit | weather_app.py:120 | `c * 9/5 + 32`: the result is below 32 exactly when the Celsius reading is below 0, and converting it back gives the Celsius reading |
| Units.FixedPoints | weather_app.py:120 | 0 °C is 32 °F, 100 °C is 212 °F, 20 °C is 68 °F, and -40 is the same on both scales |
| Units.StrictlyIncreasing | weather_app.py:120 | the conversion is strictly increasing and stretches every difference by 9/5 |
| Units.RoundTrip | weather_app.py:120 | the conversion and its inverse undo each other |
| Forecast.IsCelsius | weather_app.py:161 | the unit test `unit_choice.startswith("Celsius")`: true exactly when the first seven characters of the choice are "Celsius" |
| Forecast.ChoicesSelectUnit | weather_app.py:73-75 | the Celsius radio option passes the `startswith("Celsius")` test and the Fahrenheit option does not |
| Forecast.ForecastSeries | weather_app.py:157-165 | `dates` and `temps` both have one entry per forecast day, in input order; entry i of `dates` is day i's date; entry i of `temps` is day i's Celsius average when the unit choice starts with "Celsius", else its Fahrenheit average |

## Left out

- Lower-casing is ASCII only. Python's `str.lower` also folds non-ASCII letters. The model does not cover Unicode case folding.
- Text.Contains: its own contract states only that a prefix is found and that a found keyword fits in the text; `Text.ContainsIff` states the full "occurs at some index" meaning, because putting that quantifier in the contract makes every selector proof costlier.
- Temperatures are exact reals. The model does not cover float rounding in `c * 9/5 + 32`.
- The averaging of the two providers' temperature, humidity and wind speed (weather_app.py:117-124) is not modelled. It is float division followed by `round(..., 1)`. Wind speeds are averaged without unit harmonisation, so there is no property to state beyond "the mean of two numbers".
- The current-weather block that chooses `temp_c`/`temp_f` and `feelslike_c`/`feelslike_f` (weather_app.py:95-104) is not modelled. It only reads payload fields.
- The HTTP calls, status-code checks and JSON decoding are not modelled (weather_app.py:83-92, 107-115, 152-156). They are network I/O. The forecast payload is a parameter: a sequence of `ForecastDay` records.
- The IP geolocation lookup and its "Delhi" fallback (weather_app.py:68-69) are not modelled. It is a foreign network call.
- The Streamlit page, inputs, banners, metrics and images, and the matplotlib chart, are not modelled. They are rendering.
- The hard-coded API key and endpoint URLs (weather_app.py:8-11) are configuration, not logic.
