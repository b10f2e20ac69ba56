# Weather dashboard: a Dafny model of its deterministic core

The dashboard is one React component (`src/App.tsx`). It locates the user, fetches
current conditions and a seven-day forecast for a coordinate pair, searches cities by
name, and keeps a session list of favorite locations. This project models the parts of
it that are deterministic logic:

- **the weather-code classifier** (`Conditions`): an ordered chain of upper bounds that
  maps any integer code to one of seven condition labels;
- **the picture pickers** (`Icons`): the forecast-card icon chosen by code, and the
  current-weather icon and page background chosen by keyword search in the
  lower-cased label. They rest on the JavaScript string operations `trim`,
  `toLowerCase` and `includes` (`Text`);
- **the forecast extraction** (`Forecast`): `time.slice(1, 8)` mapped with its index,
  with every figure read at `idx + 1` of its own array;
- **the favorites list** (`Favorites`): the three seeded cities, the duplicate check on
  the coordinate pair, the append, and the removal by position;
- **the component state and its handlers** (`App`): a class whose fields are the
  component's state variables, with one method per handler. The network, the browser's
  geolocation and the clock are parameters: each handler receives the answer it would
  await (`FetchOutcome`, `SearchOutcome`, `GeoOutcome`) and the time it would stamp.

A coordinate is an exact, one-to-one stand-in for the JavaScript number that holds it
(`Favorites.Degrees`). The component only compares coordinates with `===`, so equal
stand-ins mean equal numbers. The four-decimal coordinates written in the component
(the seeded favorites and the fallback city) are written in ten-thousandths of a
degree. Figures from the provider are taken as already-rounded integers.

The class invariant `WeatherApp.Valid()` says that no two favorites share a coordinate
pair and that a shown location always has a name. The constructor establishes it, and
every handler keeps it.

A negative code satisfies `code <= 3` and is classified Partly Cloudy
(src/App.tsx:102). A position error sets the message "Unable to get your location…"
(src/App.tsx:126). The fallback fetch it then starts clears the error at once
(src/App.tsx:54), so that message is never left standing.
`GetCurrentLocation` states this.

## Model

| member | source | states |
|---|---|---|
| `Conditions.GetWeatherCondition` | src/App.tsx:100-108 | total on all integers; each label is given exactly on its band: 0 Clear Sky, negative or 1..3 Partly Cloudy, 4..48 Foggy, 49..67 Rainy, 68..77 Snowy, 78..99 Thunderstorm, above 99 Cloudy |
| `Conditions.Label` | src/App.tsx:100-108 | every condition is shown as one of the seven label strings |
| `Conditions.LabelInjective` | src/App.tsx:100-108 | distinct conditions have distinct labels, so a label names one condition |
| `Icons.GetForecastIcon` | src/App.tsx:206-214 | sun exactly for code 0, snow exactly for 68..77, rain exactly for 49..67 and 78..99, faded exactly for the fog band 4..48, a plain cloud otherwise |
| `Icons.GetWeatherIcon` | src/App.tsx:197-204 | for any label, with the lower-cased label searched in order: snow exactly when it contains "snow"; rain exactly when it contains no "snow" but "rain", "drizzle" or "thunder"; a cloud exactly when it contains none of those but "cloud" or "fog"; the sun exactly when it contains none of the six. The icon pulses exactly when it shows rain or snow, and spins exactly when it shows the sun |
| `Icons.GetBackgroundGradient` | src/App.tsx:216-222 | for any label, with the lower-cased label searched in order: grey exactly when it contains "rain" or "thunder"; blue exactly when it contains neither but "cloud"; light blue exactly when it contains none of those three but "snow"; warm exactly when it contains none of the four |
| `Icons.KeywordsOfLabel` | src/App.tsx:198-202 | ignoring case, each of the seven labels contains exactly the keyword of its own kind ("cloud" for both cloudy labels), and none contains "drizzle" |
| `Icons.PicturesOfLabel` | src/App.tsx:197-222 | the icon and background of each label: sun and warm for Clear Sky, cloud and blue for Partly Cloudy and Cloudy, cloud and warm for Foggy, rain and grey for Rainy and Thunderstorm, snow and light blue for Snowy |
| `Icons.ForecastIconMatchesCondition` | src/App.tsx:206-213 | for every code, the forecast card shows the same shape as the large icon of the condition the code is classified as |
| `Text.TrimEmptyIffBlank` | src/App.tsx:138 | `city.trim()` is empty exactly when the box holds only whitespace |
| `Text.TrimStartDropsLeadingBlank` | src/App.tsx:138 | the result is a suffix of the input, what was dropped is all whitespace, and the result does not start with whitespace |
| `Text.TrimEndDropsTrailingBlank` | src/App.tsx:138 | the result is a prefix of the input, what was dropped is all whitespace, and the result does not end with whitespace |
| `Text.ToLower` | src/App.tsx:198 | same length, each character lower-cased |
| `Text.IncludesIffOccurs` | src/App.tsx:199-202 | `includes` holds exactly when some position starts a copy of the searched text |
| `Text.IncludesLowerFolded` | src/App.tsx:198-199 | searching the lower-cased string equals searching with lower-casing applied as characters are compared |
| `Forecast.Slice` | src/App.tsx:82 | `slice(start, end)` has length max(0, min(end, n) - start), and its entry k is entry start + k |
| `Forecast.ConditionOf` | src/App.tsx:100-108 | the classifier's chain run with JavaScript's `===` and `<=` on a code that may be `undefined` (every comparison with `undefined` is false): it agrees with `GetWeatherCondition` on a defined code and gives Cloudy for an undefined one |
| `Forecast.ForecastIconOf` | src/App.tsx:206-214 | the card icon chain run with JavaScript's `===` and `<=` on the card's code, which may be `undefined`: it agrees with `GetForecastIcon` on a defined code and gives the plain, unfaded cloud for an undefined one |
| `Forecast.BuildForecast` | src/App.tsx:82-89 | min(7, max(0, days - 1)) cards; card k has the date of day k + 1 and the maximum, minimum and code read at k + 1, and its condition is the classification of that code |
| `Forecast.ForecastOfWeek` | src/App.tsx:82-89 | with at least eight days there are exactly seven cards, whatever the figure arrays hold; when every figure array covers every date, every figure on card k is defined and is day k + 1's, and its condition is the classification of day k + 1's code |
| `Forecast.TodaySkipped` | src/App.tsx:82 | no card carries today's date when that date is not repeated later in the series |
| `Favorites.SeedDistinct` | src/App.tsx:44-49 | the three seeded cities have distinct coordinate pairs |
| `Favorites.HasCoords` | src/App.tsx:169-171 | true exactly when some entry has both the given latitude and the given longitude |
| `Favorites.RemoveAt` | src/App.tsx:188-190 | a valid position yields the list without that entry; any other index leaves the list unchanged |
| `Favorites.RemoveKeepsOrder` | src/App.tsx:189 | removal at a valid position shortens the list by one; earlier entries keep their place and later ones move up by one |
| `Favorites.RemoveKeepsDistinct` | src/App.tsx:188-190 | removal keeps the coordinate pairs distinct |
| `Favorites.AppendKeepsDistinct` | src/App.tsx:169-185 | appending a location whose pair is absent keeps the coordinate pairs distinct |
| `App.DisplayName` | src/App.tsx:69 | the shown name is never empty; a non-empty name is kept, and an absent or empty one becomes "Current Location" |
| `App.Snapshot` | src/App.tsx:66-79 | the location is the display name, visibility is always 10, the coordinates are the requested ones, and the condition is the classification of the current code |
| `App.ToSaved` | src/App.tsx:179-183 | a saved entry carries the shown location's name and coordinates |
| `App.PageGradient` | src/App.tsx:225 | blue before any weather is shown, otherwise the background of the shown condition |
| `App.WeatherApp.constructor` | src/App.tsx:33-49 | the initial state: empty search, no weather, empty forecast, not loading, no error, the three seeded favorites, panel closed |
| `App.WeatherApp.SetCity` | src/App.tsx:277 | only the search text changes |
| `App.WeatherApp.ToggleSaved` | src/App.tsx:231 | only the panel flag flips |
| `App.WeatherApp.FetchWeather` | src/App.tsx:52-98 | on success the weather becomes the snapshot, the forecast is rebuilt, the error is cleared and the time stamped; on failure weather, forecast and time are kept and the fetch error set; loading ends false both ways; the favorites are untouched |
| `App.WeatherApp.GetCurrentLocation` | src/App.tsx:110-131 | without geolocation only the "not supported" error is set; a position is fetched as "Your Location"; a position error fetches Mumbai at its fixed coordinates, and the error then reflects only that fetch |
| `App.WeatherApp.HandleSearch` | src/App.tsx:137-164 | a blank box changes nothing; a failed search or no result sets its own error and keeps the weather; otherwise the first place is fetched under its own name |
| `App.WeatherApp.AddToSaved` | src/App.tsx:166-186 | no weather: nothing changes; a saved pair: list unchanged and "Location already saved!"; otherwise exactly the shown location is appended after the prior entries; pairs stay distinct |
| `App.WeatherApp.RemoveFromSaved` | src/App.tsx:188-190 | the list becomes `RemoveAt(list, index)` and nothing else changes; pairs stay distinct |
| `App.WeatherApp.LoadSavedLocation` | src/App.tsx:192-195 | the favorite is fetched under its own name and the panel is closed |
| `App.WeatherApp.Refresh` | src/App.tsx:398-403 | the shown location is fetched again and keeps its name |
| `App.SaveShownTwice` | src/App.tsx:166-177 | saving the shown location twice adds at most one entry, the pair is then saved, and the second save leaves the duplicate notice |
| `App.FallbackAlreadySeeded` | src/App.tsx:128 | the fallback fetch's name and coordinates, written separately from the seed list, are exactly the first seeded favorite (src/App.tsx:45), so that pair is already saved |

## Left out

- HTTP requests to the weather and geocoding services, URL building, `encodeURIComponent` and JSON parsing: foreign I/O. Each answer is an outcome parameter.
- A response body that parses but lacks fields: `setWeather` has already run when reading the daily block throws, so the new weather stays while the error is set. The model takes a well-formed body. A daily array shorter than `time` is modelled (as `undefined`). A `null` entry inside a figure array is not modelled: figures are integers. In JavaScript `null <= 3` is true, so a null code would read Partly Cloudy, and `Math.round(null)` is 0.
- The asynchronous interleavings: the state while a request is in flight (loading true, locating true), and overlapping requests where the last to resolve wins. Each handler runs to completion in the model.
- The two-second timer that clears the duplicate notice (src/App.tsx:175): timing.
- `Math.round`, floating-point arithmetic and NaN: figures are integers already rounded, and a temperature read past the end of its array (NaN) is `None`. Coordinates are only compared for equality, so an exact stand-in keeps what the model needs.
- Locale formatting of the forecast dates, the weekday names and the "last updated" time: library behaviour. A card keeps the provider's date string, and the time is a parameter.
- JSX rendering, CSS class strings, the icon components and the `size` argument of the weather icon: these are presentation. Icons and backgrounds are enumerations of what they select.
- Text.ToLower: lower-cases ASCII letters only, where JavaScript lower-cases all of Unicode. The condition labels it is applied to are ASCII.
