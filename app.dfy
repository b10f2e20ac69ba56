/** The dashboard component's state and its handlers. Each field is one of the
    component's state variables; each method is one handler, with the network answer
    it awaits (and the clock reading it stamps) passed in as a parameter. A handler
    runs to completion here: the state while a request is in flight is not kept. */
module App {
  import opened Wrappers
  import opened Conditions
  import opened Icons
  import opened Forecast
  import opened Favorites
  import opened Text

  /** The current conditions shown in the main panel. */
  datatype WeatherData = WeatherData(
    location: string,
    temperature: int,
    condition: Condition,
    humidity: int,
    windSpeed: int,
    visibility: int,
    pressure: int,
    feelsLike: int,
    latitude: Degrees,
    longitude: Degrees)

  /** The `current` block of a weather response, figures already rounded. */
  datatype Current = Current(
    temperature: int,
    humidity: int,
    apparentTemperature: int,
    windSpeed: int,
    surfacePressure: int,
    weatherCode: int)

  /** The answer to a weather request: a failure (transport error or non-2xx status)
      or a response body. */
  datatype FetchOutcome = FetchFailed | Fetched(current: Current, daily: Daily)

  /** The first entry of a geocoding response. */
  datatype Place = Place(name: string, latitude: Degrees, longitude: Degrees)

  /** The answer to a city search: a failure, or the (possibly empty, possibly absent
      and then empty) list of results. */
  datatype SearchOutcome = SearchFailed | Results(places: seq<Place>)

  /** What the browser's position request yields: no geolocation support at all, a
      position, or an error (denied or unavailable). */
  datatype GeoOutcome = Unsupported | Position(latitude: Degrees, longitude: Degrees) | GeoError

  const DefaultName := "Current Location"
  const OwnPositionName := "Your Location"
  const FixedVisibility := 10

  /** The place fetched when the browser reports a position error, written in
      ten-thousandths of a degree like the seeded favorites. */
  const FallbackName := "Mumbai"
  const FallbackLatitude: Degrees := 190760
  const FallbackLongitude: Degrees := 728777

  const FetchError := "Unable to fetch weather data. Please try again."
  const UnsupportedError := "Geolocation is not supported by your browser"
  const PositionError := "Unable to get your location. Please enable location services."
  const NotFoundError := "City not found. Please try another name."
  const SearchError := "Unable to search for city. Please try again."
  const DuplicateError := "Location already saved!"

  /** `locationName || 'Current Location'`: an absent or empty name gives the default. */
  function DisplayName(name: Option<string>): (r: string)
    ensures r != ""
    ensures name.Some? && name.value != "" ==> r == name.value
    ensures name.None? || name.value == "" ==> r == DefaultName
  {
    if name.Some? && name.value != "" then name.value else DefaultName
  }

  /** The snapshot a successful weather request produces. */
  function Snapshot(lat: Degrees, lon: Degrees, name: Option<string>, current: Current): (w: WeatherData)
    ensures w.location == DisplayName(name) && w.location != ""
    ensures w.visibility == 10
    ensures w.latitude == lat && w.longitude == lon
    ensures w.condition == GetWeatherCondition(current.weatherCode)
    ensures w.temperature == current.temperature && w.feelsLike == current.apparentTemperature
    ensures w.humidity == current.humidity && w.windSpeed == current.windSpeed
    ensures w.pressure == current.surfacePressure
  {
    WeatherData(
      DisplayName(name),
      current.temperature,
      GetWeatherCondition(current.weatherCode),
      current.humidity,
      current.windSpeed,
      FixedVisibility,
      current.surfacePressure,
      current.apparentTemperature,
      lat,
      lon)
  }

  /** The favorite a snapshot is saved as. */
  function ToSaved(w: WeatherData): (loc: SavedLocation)
    ensures loc.name == w.location && loc.latitude == w.latitude && loc.longitude == w.longitude
  {
    SavedLocation(w.location, w.latitude, w.longitude)
  }

  /** The page background: the condition's gradient, or blue before any weather is shown. */
  function PageGradient(weather: Option<WeatherData>): (g: Gradient)
    ensures weather.None? ==> g == Blue
    ensures weather.Some? ==> g == ExpectedGradient(weather.value.condition)
  {
    if weather.Some? then
      PicturesOfLabel(weather.value.condition);
      GetBackgroundGradient(Label(weather.value.condition))
    else Blue
  }

  class WeatherApp {
    var city: string
    var weather: Option<WeatherData>
    var forecast: seq<ForecastDay>
    var loading: bool
    var error: string
    var savedLocations: seq<SavedLocation>
    var showSaved: bool
    var gettingLocation: bool
    var lastUpdated: string

    /** The component's invariant: no two favorites share a coordinate pair, and a
        shown location always has a name. */
    ghost predicate Valid()
      reads this
    {
      && DistinctCoords(savedLocations)
      && (weather.Some? ==> weather.value.location != "")
    }

    /** Mounting: the initial state, with the favorites seeded. */
    constructor ()
      ensures Valid()
      ensures city == "" && weather == None && forecast == [] && !loading && error == ""
      ensures savedLocations == Seed && !showSaved && !gettingLocation && lastUpdated == ""
    {
      city := "";
      weather := None;
      forecast := [];
      loading := false;
      error := "";
      savedLocations := Seed;
      showSaved := false;
      gettingLocation := false;
      lastUpdated := "";
      SeedDistinct();
    }

    /** Typing in the search box. */
    method SetCity(text: string)
      requires Valid()
      modifies this
      ensures Valid()
      ensures city == text
      ensures weather == old(weather) && forecast == old(forecast) && loading == old(loading)
      ensures error == old(error) && savedLocations == old(savedLocations)
      ensures showSaved == old(showSaved) && gettingLocation == old(gettingLocation)
      ensures lastUpdated == old(lastUpdated)
    {
      city := text;
    }

    /** The star button: show or hide the favorites panel. */
    method ToggleSaved()
      requires Valid()
      modifies this
      ensures Valid()
      ensures showSaved == !old(showSaved)
      ensures city == old(city) && weather == old(weather) && forecast == old(forecast)
      ensures loading == old(loading) && error == old(error) && savedLocations == old(savedLocations)
      ensures gettingLocation == old(gettingLocation) && lastUpdated == old(lastUpdated)
    {
      showSaved := !showSaved;
    }

    /** Fetches the weather for a coordinate pair. On success the snapshot and the
        forecast are replaced, the error cleared and the time stamped; on failure they
        are kept and the error set. Loading is over either way. */
    method FetchWeather(lat: Degrees, lon: Degrees, name: Option<string>, outcome: FetchOutcome, now: string)
      requires Valid()
      modifies this
      ensures Valid()
      ensures !loading
      ensures outcome.Fetched? ==>
        && weather == Some(Snapshot(lat, lon, name, outcome.current))
        && forecast == BuildForecast(outcome.daily)
        && error == ""
        && lastUpdated == now
      ensures outcome.FetchFailed? ==>
        && weather == old(weather)
        && forecast == old(forecast)
        && error == FetchError
        && lastUpdated == old(lastUpdated)
      ensures city == old(city) && savedLocations == old(savedLocations)
      ensures showSaved == old(showSaved) && gettingLocation == old(gettingLocation)
    {
      loading := true;
      error := "";
      match outcome {
        case FetchFailed =>
          error := FetchError;
        case Fetched(current, daily) =>
          weather := Some(Snapshot(lat, lon, name, current));
          forecast := BuildForecast(daily);
          lastUpdated := now;
      }
      loading := false;
    }

    /** "Use my location", also run once on mount. With no geolocation support only the
        error is set. A position is fetched under the name "Your Location". On a
        position error the message is set, then Mumbai is fetched; that fetch clears
        the message at once, so only its own failure can leave an error behind. */
    method GetCurrentLocation(geo: GeoOutcome, outcome: FetchOutcome, now: string)
      requires Valid()
      modifies this
      ensures Valid()
      ensures !gettingLocation
      ensures geo.Unsupported? ==>
        && error == UnsupportedError
        && weather == old(weather) && forecast == old(forecast)
        && loading == old(loading) && lastUpdated == old(lastUpdated)
      ensures geo.Position? && outcome.Fetched? ==>
        weather == Some(Snapshot(geo.latitude, geo.longitude, Some(OwnPositionName), outcome.current))
      ensures geo.GeoError? && outcome.Fetched? ==>
        && weather == Some(Snapshot(FallbackLatitude, FallbackLongitude, Some(FallbackName), outcome.current))
        && weather.value.location == FallbackName
      ensures !geo.Unsupported? ==>
        && !loading
        && (outcome.Fetched? ==> forecast == BuildForecast(outcome.daily) && error == "" && lastUpdated == now)
        && (outcome.FetchFailed? ==>
              weather == old(weather) && forecast == old(forecast) && error == FetchError && lastUpdated == old(lastUpdated))
      ensures city == old(city) && savedLocations == old(savedLocations) && showSaved == old(showSaved)
    {
      gettingLocation := true;
      error := "";
      match geo {
        case Unsupported =>
          error := UnsupportedError;
          gettingLocation := false;
        case Position(lat, lon) =>
          FetchWeather(lat, lon, Some(OwnPositionName), outcome, now);
          gettingLocation := false;
        case GeoError =>
          error := PositionError;
          gettingLocation := false;
          FetchWeather(FallbackLatitude, FallbackLongitude, Some(FallbackName), outcome, now);
      }
    }

    /** The search button or Enter. A blank box does nothing. A failed search or an
        empty result sets its error and ends loading; otherwise the first place found
        is fetched under its own name. */
    method HandleSearch(search: SearchOutcome, outcome: FetchOutcome, now: string)
      requires Valid()
      modifies this
      ensures Valid()
      ensures Trim(old(city)) == [] ==>
        && weather == old(weather) && forecast == old(forecast) && loading == old(loading)
        && error == old(error) && lastUpdated == old(lastUpdated)
      ensures Trim(old(city)) != [] ==> !loading
      ensures Trim(old(city)) != [] && search.SearchFailed? ==>
        && error == SearchError
        && weather == old(weather) && forecast == old(forecast) && lastUpdated == old(lastUpdated)
      ensures Trim(old(city)) != [] && search.Results? && search.places == [] ==>
        && error == NotFoundError
        && weather == old(weather) && forecast == old(forecast) && lastUpdated == old(lastUpdated)
      ensures Trim(old(city)) != [] && search.Results? && search.places != [] ==>
        var place := search.places[0];
        && (outcome.Fetched? ==>
              && weather == Some(Snapshot(place.latitude, place.longitude, Some(place.name), outcome.current))
              && forecast == BuildForecast(outcome.daily)
              && error == "" && lastUpdated == now)
        && (outcome.FetchFailed? ==>
              weather == old(weather) && forecast == old(forecast) && error == FetchError && lastUpdated == old(lastUpdated))
      ensures city == old(city) && savedLocations == old(savedLocations)
      ensures showSaved == old(showSaved) && gettingLocation == old(gettingLocation)
    {
      if Trim(city) == [] {
        return;
      }
      loading := true;
      error := "";
      match search {
        case SearchFailed =>
          error := SearchError;
          loading := false;
        case Results(places) =>
          if |places| == 0 {
            error := NotFoundError;
            loading := false;
            return;
          }
          var place := places[0];
          FetchWeather(place.latitude, place.longitude, Some(place.name), outcome, now);
      }
    }

    /** The star next to the location name. Nothing happens without weather; a pair
        already saved only sets the notice; otherwise the shown location is appended. */
    method AddToSaved()
      requires Valid()
      modifies this
      ensures Valid()
      ensures old(weather).None? ==> savedLocations == old(savedLocations) && error == old(error)
      ensures old(weather).Some? && HasCoords(old(savedLocations), old(weather).value.latitude, old(weather).value.longitude) ==>
        savedLocations == old(savedLocations) && error == DuplicateError
      ensures old(weather).Some? && !HasCoords(old(savedLocations), old(weather).value.latitude, old(weather).value.longitude) ==>
        savedLocations == old(savedLocations) + [ToSaved(old(weather).value)] && error == old(error)
      ensures city == old(city) && weather == old(weather) && forecast == old(forecast) && loading == old(loading)
      ensures showSaved == old(showSaved) && gettingLocation == old(gettingLocation) && lastUpdated == old(lastUpdated)
    {
      if weather.None? {
        return;
      }
      var w := weather.value;
      var alreadySaved := HasCoords(savedLocations, w.latitude, w.longitude);
      if alreadySaved {
        error := DuplicateError;
        return;
      }
      AppendKeepsDistinct(savedLocations, ToSaved(w));
      savedLocations := savedLocations + [ToSaved(w)];
    }

    /** The bin next to a favorite: the entry at that position is dropped. */
    method RemoveFromSaved(index: int)
      requires Valid()
      modifies this
      ensures Valid()
      ensures savedLocations == RemoveAt(old(savedLocations), index)
      ensures city == old(city) && weather == old(weather) && forecast == old(forecast)
      ensures loading == old(loading) && error == old(error) && showSaved == old(showSaved)
      ensures gettingLocation == old(gettingLocation) && lastUpdated == old(lastUpdated)
    {
      RemoveKeepsDistinct(savedLocations, index);
      savedLocations := RemoveAt(savedLocations, index);
    }

    /** Choosing a favorite: its weather is fetched under its name and the panel closes. */
    method LoadSavedLocation(location: SavedLocation, outcome: FetchOutcome, now: string)
      requires Valid()
      modifies this
      ensures Valid()
      ensures !showSaved && !loading
      ensures outcome.Fetched? ==>
        && weather == Some(Snapshot(location.latitude, location.longitude, Some(location.name), outcome.current))
        && forecast == BuildForecast(outcome.daily) && error == "" && lastUpdated == now
      ensures outcome.FetchFailed? ==>
        weather == old(weather) && forecast == old(forecast) && error == FetchError && lastUpdated == old(lastUpdated)
      ensures city == old(city) && savedLocations == old(savedLocations) && gettingLocation == old(gettingLocation)
    {
      FetchWeather(location.latitude, location.longitude, Some(location.name), outcome, now);
      showSaved := false;
    }

    /** "Refresh Weather", offered only while weather is shown: the shown location is
        fetched again under the name it is shown with. */
    method Refresh(outcome: FetchOutcome, now: string)
      requires Valid() && weather.Some?
      modifies this
      ensures Valid()
      ensures !loading
      ensures outcome.Fetched? ==>
        && weather == Some(Snapshot(old(weather).value.latitude, old(weather).value.longitude,
                                    Some(old(weather).value.location), outcome.current))
        && weather.value.location == old(weather).value.location
        && forecast == BuildForecast(outcome.daily) && error == "" && lastUpdated == now
      ensures outcome.FetchFailed? ==>
        weather == old(weather) && forecast == old(forecast) && error == FetchError && lastUpdated == old(lastUpdated)
      ensures city == old(city) && savedLocations == old(savedLocations)
      ensures showSaved == old(showSaved) && gettingLocation == old(gettingLocation)
    {
      var w := weather.value;
      FetchWeather(w.latitude, w.longitude, Some(w.location), outcome, now);
    }
  }

  /** Pressing the save star twice on the same shown location: the list grows by at
      most one entry, holds the shown pair afterwards, and the second press leaves the
      duplicate notice. */
  method SaveShownTwice(app: WeatherApp)
    requires app.Valid() && app.weather.Some?
    modifies app
    ensures app.Valid() && app.weather == old(app.weather)
    ensures |app.savedLocations| <= |old(app.savedLocations)| + 1
    ensures HasCoords(app.savedLocations, app.weather.value.latitude, app.weather.value.longitude)
    ensures app.error == DuplicateError
  {
    app.AddToSaved();
    ghost var s := app.savedLocations;
    assert HasCoords(s, app.weather.value.latitude, app.weather.value.longitude) by {
      if |s| > |old(app.savedLocations)| {
        assert s[|s| - 1] == ToSaved(app.weather.value);
      }
    }
    app.AddToSaved();
  }

  /** The fallback city is one of the seeded favorites, so saving it right after a
      position error is refused as a duplicate. */
  lemma FallbackAlreadySeeded()
    ensures Seed[0] == SavedLocation(FallbackName, FallbackLatitude, FallbackLongitude)
    ensures HasCoords(Seed, FallbackLatitude, FallbackLongitude)
  {
    assert Seed[0].latitude == FallbackLatitude && Seed[0].longitude == FallbackLongitude;
  }
}
