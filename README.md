# Weather widget: verified model of its data logic

The app is a single-page weather widget (`app.js`). It geocodes a place name
(or reverse-geocodes the browser's position) with the Open-Meteo geocoding
API and fetches current conditions, an hourly series and a daily forecast
from the Open-Meteo forecast API. It then fills the page: the current panel
(place, icon, description, temperature, feels-like, humidity, wind,
timezone) and one card per forecast day. Two buttons switch between metric
(`celsius` + `kmh`) and imperial (`fahrenheit` + `mph`) units and re-run the
search for the shown place.

This project models the logic inside those handlers, with the network
answers given as inputs:

- `number_text.dfy` (`NumberText`): `Math.round` on reals (`floor(x + 1/2)`)
  and the decimal text a template literal prints for an integer, with a
  parser as its inverse so that printed numbers provably read back.
- `weather_codes.dfy` (`WeatherCodes`): the 28-entry condition-code table
  and its `Unknown` fallback.
- `units.dfy` (`Units`): the unit pair, `fmtTemp` / `fmtWind`, the page's
  `units` variable as a class whose two toggle methods keep the pair intact,
  and the re-fetch rule (`place.split(',')[0]`, skipped for an empty label or
  `—`).
- `geocoding.dfy` (`Geocoding`): the forward-search decisions of
  `searchCity` and the never-failing reverse lookup of the geolocation
  callback.
- `report.dfy` (`Report`): the data side of `loadWeather`. This covers the
  `indexOf` join of the current time into the hourly series, the humidity
  and timezone fallbacks, the place label, and the forecast built by a loop
  over `daily.time`.
- `pipeline.dfy` (`Pipeline`): search → load and locate → load end to end,
  and what a unit toggle searches for after a load.

The timezone label follows the code, `wx.timezone || timezone || '—'`. The
payload's timezone wins and the location's is only the second fallback.

## Model

| member | source | states |
|---|---|---|
| `NumberText.Round` | app.js:42-43 | `Math.round`: the result is within one half of `x`, with halves going up (`x - 1/2 < r <= x + 1/2`) |
| `NumberText.IntToString` | app.js:42-43 | the printed integer is canonical (no leading zeros, never `-0`) and starts with `-` exactly for negatives |
| `NumberText.IntToStringRoundTrip` | app.js:42-43 | the text printed for an integer is a well-formed numeral that parses back to the same integer |
| `NumberText.CanonicalNatUnique` | app.js:42-43 | a canonical digit string is exactly what is printed for its value |
| `NumberText.CanonicalUnique` | app.js:42-43 | the printed text is the only canonical numeral for an integer, so the formatters' text is fully determined |
| `NumberText.IntToStringInjective` | app.js:42-43 | two integers print the same text exactly when they are equal |
| `WeatherCodes.CodeToInfo` | app.js:5-38 | total over all integers; a listed code yields its own table entry; the `('Unknown','❔')` pair is returned exactly for unlisted codes, and no listed entry has that description or icon |
| `WeatherCodes.CatalogCodes` | app.js:7-36 | the table's keys are exactly the 28 listed codes, all within 0..99 |
| `WeatherCodes.CatalogSize` | app.js:7-36 | the table has 28 distinct entries |
| `WeatherCodes.CodeToInfoExamples` | app.js:8-37 | codes 0, 3, 61 and 99 give their entries; 4, -1 and 9999 give Unknown |
| `Units.TempSuffix` | app.js:42 | the suffix is `°C` exactly when the temperature unit is `celsius`, `°F` otherwise |
| `Units.WindSuffix` | app.js:43 | the suffix is ` km/h` exactly when the wind unit is `kmh`, ` mph` otherwise |
| `Units.FmtTemp` | app.js:42 | the text ends with the temperature suffix and what precedes it is the canonical numeral of `Math.round(t)` |
| `Units.FmtWind` | app.js:43 | the text ends with the wind suffix and what precedes it is the canonical numeral of `Math.round(w)` |
| `Units.FmtTempInjective` | app.js:42 | under paired units, two temperature texts are equal exactly when the rounded values and the unit pairs are |
| `Units.FmtTempExamples` | app.js:42 | 20.4 shows as `20°C` and 20.6 as `21°C` |
| `Units.FmtTempNegativeHalf` | app.js:42 | -2.5 rounds up to -2 and shows as `-2°F` |
| `Units.FmtWindExample` | app.js:43 | 15.2 in imperial units shows as `15 mph` |
| `Units.FirstField` | app.js:153 | the result is a comma-free prefix of the label, ending just before its first comma when there is one |
| `Units.FirstFieldNoComma` | app.js:153 | a comma-free label is its own first field |
| `Units.FirstFieldAppend` | app.js:153 | text appended after a comma does not change the first field |
| `Units.RefetchQuery` | app.js:151-153 | a search is re-run exactly when the label is non-empty and not `—`, with the label's first comma-separated field |
| `Units.UnitState.constructor` | app.js:40 | the page starts with the metric pair |
| `Units.UnitState.SelectCelsius` | app.js:147-155 | the units end as the metric pair; a click while already metric returns no search; otherwise the re-fetch rule decides the search |
| `Units.UnitState.SelectFahrenheit` | app.js:157-164 | the units end as the imperial pair; a click while already imperial returns no search; otherwise the re-fetch rule decides the search |
| `Geocoding.FirstResult` | app.js:53 | the chosen place is the first element of the results |
| `Geocoding.ResolveByName` | app.js:46-60 | non-ok status fails with "Geocoding failed"; ok with missing or empty results fails with "City not found"; otherwise succeeds with the first result's name, country, coordinates and timezone |
| `Geocoding.CountryOrEmpty` | app.js:139 | a present country is kept and a missing one becomes `''` |
| `Geocoding.ReverseLocation` | app.js:129-142 | never fails; keeps the coordinates and sets no timezone; names the first result (country or `''`) when the status is ok and results are non-empty, else `Your location` / `''` |
| `Report.IndexOf` | app.js:83 | returns -1 exactly when the time is absent, else the first position holding it |
| `Report.HourlyAt` | app.js:83-85 | at the first matching hour: that hour's apparent temperature and humidity; with no match: the current temperature and no humidity |
| `Report.HumidityText` | app.js:87 | `—` exactly for a missing humidity, otherwise the canonical numeral of the humidity followed by `%` |
| `Report.OrElse` | app.js:78 | JavaScript's logical or on an optional string: `a` when it is present and non-empty, else `b` |
| `Report.TimezoneLabel` | app.js:78 | the payload timezone when non-empty, else the location's when non-empty, else `—`; never blank |
| `Report.CountryText` | app.js:73 | a present country prints as itself and a missing one as `undefined` |
| `Report.PlaceLabel` | app.js:73 | the label is the location's name, then `, `, then the country's text |
| `Report.CurrentOf` | app.js:71-88 | the panel's place, icon, description, temperature, wind and timezone come from the location, the current block and the units; feels-like and humidity come from the first hour equal to the current time, else the current temperature and `—` |
| `Report.BuildForecast` | app.js:92-107 | starting from an empty list, one card per `daily.time` entry in order; card `i` takes date `i`, the icon and description of `weathercode[i]`, and the rounded `min[i]` and `max[i]` |
| `Report.LoadWeather` | app.js:63-107 | non-ok status fails with "Weather fetch failed"; otherwise the current panel of the location, payload and units, and the forecast cards of the daily series |
| `Report.ForecastUnique` | app.js:93-107 | two card lists built from the same daily data are equal, so no stale card survives a reload |
| `Pipeline.SearchCity` | app.js:46-61 | a geocoding error surfaces unchanged; after a resolved place, a failed weather fetch gives "Weather fetch failed"; otherwise the report of the first match |
| `Pipeline.LocateAndLoad` | app.js:128-143 | fails only when the weather fetch fails, with "Failed to load your location"; otherwise the report of the reverse-geocoded location |
| `Pipeline.RefetchOfLabel` | app.js:73 | a place label is always re-searched, with the location name up to its first comma |
| `Pipeline.RefetchAfterLoad` | app.js:151-153 | after any load, a unit toggle re-searches with the location name up to its first comma (the whole name when it has none) |
| `Pipeline.FallbackRefetch` | app.js:134 | after a fallback reverse lookup, a unit toggle searches for the literal name `Your location` |
| `Pipeline.ParisScenario` | app.js:71-88 | a Paris search whose current time is the third hour shows `Paris, FR`, Overcast ☁️, `18°C`, feels `17°C`, `60%`, `10 km/h` |

## Left out

- Network I/O: `fetch`, `res.json()`, URL building and `encodeURIComponent`. The responses are inputs: an ok flag plus the decoded body.
- A `fetch` that rejects (a transport error, not an HTTP status) is not modelled. In the geolocation path it would reach the catch and show "Failed to load your location" without a load.
- Geocoding.ReverseLocation: its never-fails promise covers resolved HTTP responses only; a rejected fetch is not modelled.
- DOM work: `$`, `textContent`, `innerHTML` markup of the cards, `style.opacity`, `setStatus` and the status texts "Searching…" / "Loading weather…". The model yields the values the page shows instead.
- The coordinates line, the lat/lon fields (`toFixed`), the "updated" time (`toLocaleString`) and the weekday name (`toLocaleDateString`). These are locale and floating-point formatting from libraries outside the file. A forecast card keeps the raw date key instead.
- Event wiring: geolocation permission, the submit handler's `trim` / empty-query guard, the default-city load on page start, and the swallowed errors of the toggle re-search. These are browser plumbing.
- Units.UnitState.SelectCelsius: the re-run search is returned as a query, not performed. Overlapping async loads with last-write-wins rendering are not modelled. This includes a unit change landing between a fetch and its rendering.
- Units.UnitState.SelectFahrenheit: the same as SelectCelsius.
- Numbers are reals. `NaN`, infinities and JavaScript's exponent notation for very large numbers are not modelled. Humidity is an integer percentage or `null`.
- Report.LoadWeather: requires every hourly and daily series to be at least as long as its `time` series. The code does not check this. A short apparent-temperature or min/max series would show `NaN`. A short weather-code series would show `Unknown` / `❔`. A short humidity series would show `—`.
- Report.BuildForecast: the same length requirement on the daily series.
- Report.HourlyAt, Report.CurrentOf, Pipeline.SearchCity and Pipeline.LocateAndLoad: the same length requirement on the hourly series (and, for the two pipeline methods, the daily series).
- A `null` entry in a numeric series other than humidity is not modelled; these values are typed as plain numbers. In the code, `Math.round(null)` is `0`: a null apparent temperature at the matched hour would show `0°C`, a null daily min or max `0°`. A null weather code shows `Unknown` / `❔`.
- A successful forecast response that lacks `current_weather`, `hourly` or `daily` is not modelled. The code throws a TypeError partway through. With `hourly` missing, the place, icon, temperature, description and timezone are already updated; feels-like, humidity, wind and the forecast keep their old values. With `daily` missing, the forecast is cleared and then the code throws.
- A forward search whose body is `null` is not modelled. The code would throw a TypeError reading `data.results`, and the submit handler would show that message. In the reverse lookup a `null` body is guarded and behaves like missing results, which is how it is modelled there.
- Geocoding results are assumed to carry a `name`; a missing country in a forward search prints as `undefined` in the place label, as the template literal does.
