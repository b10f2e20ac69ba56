/** The three pickers that turn a weather code or a condition label into a picture:
    the forecast card icon (by code), the current-weather icon and the page background
    (both by keyword search in the lower-cased label). Icon components and CSS class
    strings are reduced to enumerations of what they select. */
module Icons {
  import opened Text
  import opened Conditions

  /** The four icon shapes used for weather. */
  datatype Glyph = Sun | Cloud | CloudRain | CloudSnow

  /** How the large current-weather icon moves: a pulse, none, or a slow spin. */
  datatype Motion = Pulse | Still | Spin

  datatype WeatherIcon = WeatherIcon(glyph: Glyph, motion: Motion)

  /** A forecast card icon; `faded` is the reduced opacity given to fog codes. */
  datatype ForecastIcon = ForecastIcon(glyph: Glyph, faded: bool)

  /** The four page backgrounds: grey, blue, light blue and the warm orange-to-yellow one. */
  datatype Gradient = Gray | Blue | LightBlue | Warm

  /** The forecast card icon for a weather code, by the same bounds as the classifier. */
  function GetForecastIcon(code: int): (icon: ForecastIcon)
    ensures icon.faded <==> 4 <= code <= 48
    ensures icon.glyph == Sun <==> code == 0
    ensures icon.glyph == CloudSnow <==> 68 <= code <= 77
    ensures icon.glyph == CloudRain <==> 49 <= code <= 67 || 78 <= code <= 99
  {
    if code == 0 then ForecastIcon(Sun, false)
    else if code <= 3 then ForecastIcon(Cloud, false)
    else if code <= 48 then ForecastIcon(Cloud, true)
    else if code <= 67 then ForecastIcon(CloudRain, false)
    else if code <= 77 then ForecastIcon(CloudSnow, false)
    else if code <= 99 then ForecastIcon(CloudRain, false)
    else ForecastIcon(Cloud, false)
  }

  /** The current-weather icon for a condition label: the label is lower-cased, then
      searched for keywords. */
  function GetWeatherIcon(condition: string): (icon: WeatherIcon)
    ensures icon.motion == Pulse <==> icon.glyph == CloudSnow || icon.glyph == CloudRain
    ensures icon.motion == Spin <==> icon.glyph == Sun
    ensures var lower := ToLower(condition);
      && (icon.glyph == CloudSnow <==> Includes(lower, "snow"))
      && (icon.glyph == CloudRain <==>
            !Includes(lower, "snow")
            && (Includes(lower, "rain") || Includes(lower, "drizzle") || Includes(lower, "thunder")))
      && (icon.glyph == Cloud <==>
            !Includes(lower, "snow") && !Includes(lower, "rain") && !Includes(lower, "drizzle")
            && !Includes(lower, "thunder") && (Includes(lower, "cloud") || Includes(lower, "fog")))
      && (icon.glyph == Sun <==>
            !Includes(lower, "snow") && !Includes(lower, "rain") && !Includes(lower, "drizzle")
            && !Includes(lower, "thunder") && !Includes(lower, "cloud") && !Includes(lower, "fog"))
  {
    IconForKeywords(ToLower(condition))
  }

  /** The keyword search behind `GetWeatherIcon`, first match wins. */
  function IconForKeywords(lower: string): WeatherIcon
  {
    if Includes(lower, "snow") then WeatherIcon(CloudSnow, Pulse)
    else if Includes(lower, "rain") || Includes(lower, "drizzle") then WeatherIcon(CloudRain, Pulse)
    else if Includes(lower, "thunder") then WeatherIcon(CloudRain, Pulse)
    else if Includes(lower, "cloud") || Includes(lower, "fog") then WeatherIcon(Cloud, Still)
    else WeatherIcon(Sun, Spin)
  }

  /** The page background for a condition label: the label is lower-cased, then
      searched for keywords. */
  function GetBackgroundGradient(condition: string): (g: Gradient)
    ensures var lower := ToLower(condition);
      && (g == Gray <==> Includes(lower, "rain") || Includes(lower, "thunder"))
      && (g == Blue <==> !Includes(lower, "rain") && !Includes(lower, "thunder") && Includes(lower, "cloud"))
      && (g == LightBlue <==>
            !Includes(lower, "rain") && !Includes(lower, "thunder") && !Includes(lower, "cloud")
            && Includes(lower, "snow"))
      && (g == Warm <==>
            !Includes(lower, "rain") && !Includes(lower, "thunder") && !Includes(lower, "cloud")
            && !Includes(lower, "snow"))
  {
    GradientForKeywords(ToLower(condition))
  }

  /** The keyword search behind `GetBackgroundGradient`, first match wins. */
  function GradientForKeywords(lower: string): Gradient
  {
    if Includes(lower, "rain") || Includes(lower, "thunder") then Gray
    else if Includes(lower, "cloud") then Blue
    else if Includes(lower, "snow") then LightBlue
    else Warm
  }

  /** The icon each label selects: the sun only for a clear sky, a plain cloud for
      cloud and fog, rain for rain and thunder, snow for snow. */
  function ExpectedIcon(c: Condition): WeatherIcon
  {
    match c
    case ClearSky => WeatherIcon(Sun, Spin)
    case PartlyCloudy | Foggy | Cloudy => WeatherIcon(Cloud, Still)
    case Rainy | Thunderstorm => WeatherIcon(CloudRain, Pulse)
    case Snowy => WeatherIcon(CloudSnow, Pulse)
  }

  /** The background each label selects. Fog is not among the keywords, so a foggy
      sky gets the same warm background as a clear one. */
  function ExpectedGradient(c: Condition): Gradient
  {
    match c
    case ClearSky | Foggy => Warm
    case PartlyCloudy | Cloudy => Blue
    case Rainy | Thunderstorm => Gray
    case Snowy => LightBlue
  }

  /** What the keyword searches make of each of the seven labels. */
  lemma PicturesOfLabel(c: Condition)
    ensures GetWeatherIcon(Label(c)) == ExpectedIcon(c)
    ensures GetBackgroundGradient(Label(c)) == ExpectedGradient(c)
  {
    KeywordsFolded(Label(c));
    KeywordsOfLabel(c);
  }

  /** Which keywords each label contains, ignoring case: each label holds exactly the
      keyword of its own kind, and none holds "drizzle". */
  lemma KeywordsOfLabel(c: Condition)
    ensures FoldedIncludesFrom(Label(c), "snow", 0) <==> c == Snowy
    ensures FoldedIncludesFrom(Label(c), "rain", 0) <==> c == Rainy
    ensures !FoldedIncludesFrom(Label(c), "drizzle", 0)
    ensures FoldedIncludesFrom(Label(c), "thunder", 0) <==> c == Thunderstorm
    ensures FoldedIncludesFrom(Label(c), "cloud", 0) <==> c == PartlyCloudy || c == Cloudy
    ensures FoldedIncludesFrom(Label(c), "fog", 0) <==> c == Foggy
  {
    match c
    case ClearSky => ClearSkyKeywords();
    case PartlyCloudy => PartlyCloudyKeywords();
    case Foggy => FoggyKeywords();
    case Rainy => RainyKeywords();
    case Snowy => SnowyKeywords();
    case Thunderstorm => ThunderstormKeywords();
    case Cloudy => CloudyKeywords();
  }

  lemma ClearSkyKeywords()
    ensures !FoldedIncludesFrom("Clear Sky", "snow", 0)
    ensures !FoldedIncludesFrom("Clear Sky", "rain", 0)
    ensures !FoldedIncludesFrom("Clear Sky", "drizzle", 0)
    ensures !FoldedIncludesFrom("Clear Sky", "thunder", 0)
    ensures !FoldedIncludesFrom("Clear Sky", "cloud", 0)
    ensures !FoldedIncludesFrom("Clear Sky", "fog", 0)
  {
  }

  lemma PartlyCloudyKeywords()
    ensures !FoldedIncludesFrom("Partly Cloudy", "snow", 0)
    ensures !FoldedIncludesFrom("Partly Cloudy", "rain", 0)
    ensures !FoldedIncludesFrom("Partly Cloudy", "drizzle", 0)
    ensures !FoldedIncludesFrom("Partly Cloudy", "thunder", 0)
    ensures FoldedIncludesFrom("Partly Cloudy", "cloud", 0)
    ensures !FoldedIncludesFrom("Partly Cloudy", "fog", 0)
  {
  }

  lemma FoggyKeywords()
    ensures !FoldedIncludesFrom("Foggy", "snow", 0)
    ensures !FoldedIncludesFrom("Foggy", "rain", 0)
    ensures !FoldedIncludesFrom("Foggy", "drizzle", 0)
    ensures !FoldedIncludesFrom("Foggy", "thunder", 0)
    ensures !FoldedIncludesFrom("Foggy", "cloud", 0)
    ensures FoldedIncludesFrom("Foggy", "fog", 0)
  {
  }

  lemma RainyKeywords()
    ensures !FoldedIncludesFrom("Rainy", "snow", 0)
    ensures FoldedIncludesFrom("Rainy", "rain", 0)
    ensures !FoldedIncludesFrom("Rainy", "drizzle", 0)
    ensures !FoldedIncludesFrom("Rainy", "thunder", 0)
    ensures !FoldedIncludesFrom("Rainy", "cloud", 0)
    ensures !FoldedIncludesFrom("Rainy", "fog", 0)
  {
  }

  lemma SnowyKeywords()
    ensures FoldedIncludesFrom("Snowy", "snow", 0)
    ensures !FoldedIncludesFrom("Snowy", "rain", 0)
    ensures !FoldedIncludesFrom("Snowy", "drizzle", 0)
    ensures !FoldedIncludesFrom("Snowy", "thunder", 0)
    ensures !FoldedIncludesFrom("Snowy", "cloud", 0)
    ensures !FoldedIncludesFrom("Snowy", "fog", 0)
  {
  }

  lemma ThunderstormKeywords()
    ensures !FoldedIncludesFrom("Thunderstorm", "snow", 0)
    ensures !FoldedIncludesFrom("Thunderstorm", "rain", 0)
    ensures !FoldedIncludesFrom("Thunderstorm", "drizzle", 0)
    ensures FoldedIncludesFrom("Thunderstorm", "thunder", 0)
    ensures !FoldedIncludesFrom("Thunderstorm", "cloud", 0)
    ensures !FoldedIncludesFrom("Thunderstorm", "fog", 0)
  {
  }

  lemma CloudyKeywords()
    ensures !FoldedIncludesFrom("Cloudy", "snow", 0)
    ensures !FoldedIncludesFrom("Cloudy", "rain", 0)
    ensures !FoldedIncludesFrom("Cloudy", "drizzle", 0)
    ensures !FoldedIncludesFrom("Cloudy", "thunder", 0)
    ensures FoldedIncludesFrom("Cloudy", "cloud", 0)
    ensures !FoldedIncludesFrom("Cloudy", "fog", 0)
  {
  }

  /** The keyword searches on a label, each replaced by the search with on-the-fly lowering. */
  lemma KeywordsFolded(shown: string)
    ensures Includes(ToLower(shown), "snow") == FoldedIncludesFrom(shown, "snow", 0)
    ensures Includes(ToLower(shown), "rain") == FoldedIncludesFrom(shown, "rain", 0)
    ensures Includes(ToLower(shown), "drizzle") == FoldedIncludesFrom(shown, "drizzle", 0)
    ensures Includes(ToLower(shown), "thunder") == FoldedIncludesFrom(shown, "thunder", 0)
    ensures Includes(ToLower(shown), "cloud") == FoldedIncludesFrom(shown, "cloud", 0)
    ensures Includes(ToLower(shown), "fog") == FoldedIncludesFrom(shown, "fog", 0)
  {
    IncludesLowerFolded(shown, "snow", 0);
    IncludesLowerFolded(shown, "rain", 0);
    IncludesLowerFolded(shown, "drizzle", 0);
    IncludesLowerFolded(shown, "thunder", 0);
    IncludesLowerFolded(shown, "cloud", 0);
    IncludesLowerFolded(shown, "fog", 0);
  }

  /** A forecast card shows the same shape as the large icon would for the condition
      its code is classified as; only the faded look of fog is its own. */
  lemma {:induction false} ForecastIconMatchesCondition(code: int)
    ensures GetForecastIcon(code).glyph == GetWeatherIcon(Label(GetWeatherCondition(code))).glyph
  {
    PicturesOfLabel(GetWeatherCondition(code));
  }
}
