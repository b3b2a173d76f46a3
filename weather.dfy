/** The three-day forecast in the sidebar. The forecast API's daily
    `weathercode` list carries WMO weather interpretation codes (WMO code
    table 4677); each day's code is reduced to one of five icons. */
module Weather {
  import opened Wrappers

  datatype Icon = Sun | Cloud | Fog | Rain | Showers

  /** The emoji shown for each icon. */
  function Glyph(icon: Icon): string
  {
    match icon
    case Sun => "☀️"
    case Cloud => "☁️"
    case Fog => "🌫️"
    case Rain => "🌧️"
    case Showers => "☔"
  }

  /** The if/elif chain: the first matching branch wins, sun is the fallback. */
  function IconFor(code: int): (icon: Icon)
    // mainly clear, partly cloudy, overcast
    ensures icon == Cloud <==> 1 <= code <= 3
    // fog and depositing rime fog
    ensures icon == Fog <==> code == 45 || code == 48
    // drizzle and rain, each at its three odd-numbered intensities
    ensures icon == Rain <==> (51 <= code <= 55 || 61 <= code <= 65) && code % 2 == 1
    // every code from 80 up: rain showers, snow showers, thunderstorms
    ensures icon == Showers <==> code >= 80
  {
    if code in [1, 2, 3] then Cloud
    else if code in [45, 48] then Fog
    else if code in [51, 53, 55, 61, 63, 65] then Rain
    else if code >= 80 then Showers
    else Sun
  }

  /** Everything no branch names falls back to the sun: clear sky (0), freezing
      drizzle and rain, snow, and codes outside the table. */
  lemma SunIsTheFallback(code: int)
    ensures IconFor(code) == Sun <==>
      code <= 0 || (4 <= code < 80 && code != 45 && code != 48 &&
                    code != 51 && code != 53 && code != 55 &&
                    code != 61 && code != 63 && code != 65)
  {
  }

  const DayLabels: seq<string> := ["오늘", "내일", "모레"]

  /** One row of the sidebar forecast: the day's label and its emoji. */
  datatype DayForecast = DayForecast(day: string, icon: string)

  /** The loop of `get_miyako_weather_3days` over today, tomorrow and the day
      after. `daily` is the API's code list, `None` when the request or its
      JSON failed, or when any other part of the response (such as a
      temperature list) is missing or too short; a code list shorter than
      three days raises inside the loop, and the bare `except` turns every
      such failure into `None`. */
  method ThreeDayForecast(daily: Option<seq<int>>) returns (r: Option<seq<DayForecast>>)
    ensures r.Some? <==> daily.Some? && |daily.value| >= 3
    ensures r.Some? ==> (|r.value| == 3 &&
      forall i :: 0 <= i < 3 ==> r.value[i] == DayForecast(DayLabels[i], Glyph(IconFor(daily.value[i]))))
  {
    if daily.None? {
      return None;
    }
    var codes := daily.value;
    var forecasts: seq<DayForecast> := [];
    var i := 0;
    while i < 3
      invariant 0 <= i <= 3 && i <= |codes|
      invariant |forecasts| == i
      invariant forall k :: 0 <= k < i ==> forecasts[k] == DayForecast(DayLabels[k], Glyph(IconFor(codes[k])))
    {
      if i >= |codes| {
        return None;
      }
      var icon := Glyph(IconFor(codes[i]));
      forecasts := forecasts + [DayForecast(DayLabels[i], icon)];
      i := i + 1;
    }
    return Some(forecasts);
  }
}
