/** The weather-code classifier: the provider's numeric weather code is collapsed,
    by an ordered chain of upper bounds, into one of seven condition labels. */
module Conditions {

  /** The seven condition labels the dashboard can show. */
  datatype Condition = ClearSky | PartlyCloudy | Foggy | Rainy | Snowy | Thunderstorm | Cloudy

  /** The text shown for a condition; it is also what the icon and background pickers read. */
  function Label(c: Condition): (s: string)
    ensures s in {"Clear Sky", "Partly Cloudy", "Foggy", "Rainy", "Snowy", "Thunderstorm", "Cloudy"}
  {
    match c
    case ClearSky => "Clear Sky"
    case PartlyCloudy => "Partly Cloudy"
    case Foggy => "Foggy"
    case Rainy => "Rainy"
    case Snowy => "Snowy"
    case Thunderstorm => "Thunderstorm"
    case Cloudy => "Cloudy"
  }

  /** Distinct conditions are shown with distinct labels, so a label names its condition. */
  lemma LabelInjective(a: Condition, b: Condition)
    ensures Label(a) == Label(b) ==> a == b
  {
  }

  /** The classifier, first matching bound wins; it is total: every integer gets a label. */
  function GetWeatherCondition(code: int): (c: Condition)
    ensures c == ClearSky <==> code == 0
    ensures c == PartlyCloudy <==> code < 0 || 1 <= code <= 3
    ensures c == Foggy <==> 4 <= code <= 48
    ensures c == Rainy <==> 49 <= code <= 67
    ensures c == Snowy <==> 68 <= code <= 77
    ensures c == Thunderstorm <==> 78 <= code <= 99
    ensures c == Cloudy <==> code > 99
  {
    if code == 0 then ClearSky
    else if code <= 3 then PartlyCloudy
    else if code <= 48 then Foggy
    else if code <= 67 then Rainy
    else if code <= 77 then Snowy
    else if code <= 99 then Thunderstorm
    else Cloudy
  }
}
