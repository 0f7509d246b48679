/**
 * The weather tile: the icon for a WMO weather interpretation code (WMO code
 * table 4677), the icon's animation, and what the tile shows.
 */
module WeatherTile {
  import opened Options
  import opened JsString

  /** The current weather as fetched: temperature (Fahrenheit) and WMO code. */
  datatype WeatherData = WeatherData(temperature: real, weatherCode: int)

  /** The current US air-quality index. */
  datatype AqiData = AqiData(usAqi: int)

  /** The icon for each WMO code the tile knows. */
  const WeatherIcons: map<int, string> := map[
    0 := "sun", 1 := "sun", 2 := "cloud", 3 := "cloud",
    45 := "align-justify", 48 := "align-justify",
    51 := "cloud-drizzle", 53 := "cloud-drizzle", 55 := "cloud-drizzle",
    61 := "cloud-rain", 63 := "cloud-rain", 65 := "cloud-rain",
    71 := "cloud-snow", 73 := "cloud-snow", 75 := "cloud-snow",
    80 := "cloud-drizzle", 81 := "cloud-drizzle", 82 := "cloud-rain",
    95 := "cloud-lightning", 96 := "cloud-lightning", 99 := "cloud-lightning"
  ]

  /** `iconName`: the table's icon for the code, and "sun" for an unknown code or no data. */
  function IconName(weather: Option<WeatherData>): (r: string)
    ensures weather.Some? && weather.value.weatherCode in WeatherIcons ==> r == WeatherIcons[weather.value.weatherCode]
    ensures weather.None? || weather.value.weatherCode !in WeatherIcons ==> r == "sun"
  {
    if weather.Some? && weather.value.weatherCode in WeatherIcons then WeatherIcons[weather.value.weatherCode] else "sun"
  }

  /** The icon is always one of the seven glyphs of the table. */
  lemma IconIsKnown(weather: Option<WeatherData>)
    ensures IconName(weather) in WeatherIcons.Values
  {
    assert WeatherIcons[0] == "sun";
  }

  /** Only the clear-sky codes 0 and 1 show the sun; unknown codes fall back to it. */
  lemma SunExactlyForClearSky(code: int)
    ensures IconName(Some(WeatherData(0.0, code))) == "sun" <==> code in {0, 1} || code !in WeatherIcons
  {
  }

  /** An animated value: held where a cancelled animation left it, set to a number, or repeating. */
  datatype Track =
    | Held
    | SetTo(value: int)
    /** 0 to 360 degrees over 20 s, repeated forever. */
    | Spinning
    /** +5 then -5 px over 4 s each, repeated forever, reversing. */
    | Drifting

  /** Whether the animation for an icon spins it (the sun) and whether it drifts (any cloud glyph). */
  predicate Spins(iconName: string) {
    iconName == "sun"
  }

  predicate Drifts(iconName: string) {
    Includes(iconName, "cloud")
  }

  /** The sun does not drift, so no icon both spins and drifts. */
  lemma NeverSpinsAndDrifts(iconName: string)
    ensures !(Spins(iconName) && Drifts(iconName))
  {
    if Spins(iconName) {
      assert !Includes("sun"[1..][1..][1..], "cloud");
      assert !Includes("sun"[1..][1..], "cloud");
      assert !Includes("sun"[1..], "cloud");
    }
  }

  /** Among the table's icons, fog ("align-justify") is the only one that neither spins nor drifts. */
  lemma TableMotion(code: int)
    requires code in WeatherIcons
    ensures Spins(WeatherIcons[code]) || Drifts(WeatherIcons[code]) || WeatherIcons[code] == "align-justify"
    ensures !Spins("align-justify") && !Drifts("align-justify")
  {
    var icon := WeatherIcons[code];
    if !Spins(icon) && icon != "align-justify" {
      assert icon[..5] == "cloud";
    }
    var fog := "align-justify";
    assert forall k :: 0 <= k < |fog| ==> fog[k] != 'c';
  }

  /** `cancelAnimation`: a running animation stops where it is; a value that is not animating keeps it. */
  function Cancelled(track: Track): (r: Track)
    ensures r == Held <==> track == Held || track == Spinning || track == Drifting
    ensures !(r == Spinning || r == Drifting)
    ensures track.SetTo? ==> r == track
  {
    if track == Spinning || track == Drifting then Held else track
  }

  class IconAnimation {
    var rotation: Track
    var translationX: Track

    constructor ()
      ensures rotation == SetTo(0) && translationX == SetTo(0)
    {
      rotation, translationX := SetTo(0), SetTo(0);
    }

    /**
     * The animation effect, run when the icon or the loading flag changes:
     * cancel both animations, which stops a running one where it is and
     * leaves a value that is not animating alone; while loading start nothing; otherwise spin the
     * sun and drift any cloud, and put the other value back to 0.
     */
    method Update(iconName: string, isLoading: bool)
      modifies this
      ensures isLoading ==> rotation == Cancelled(old(rotation)) && translationX == Cancelled(old(translationX))
      ensures !isLoading ==> rotation == (if Spins(iconName) then Spinning else SetTo(0))
      ensures !isLoading ==> translationX == (if Drifts(iconName) then Drifting else SetTo(0))
      ensures !(rotation == Spinning && translationX == Drifting)
    {
      NeverSpinsAndDrifts(iconName);
      rotation, translationX := Cancelled(rotation), Cancelled(translationX);
      if isLoading {
        return;
      }
      rotation := if iconName == "sun" then Spinning else SetTo(0);
      translationX := if Includes(iconName, "cloud") then Drifting else SetTo(0);
    }
  }

  /** What the tile's body shows. */
  datatype Content = Spinner | Unavailable | Reading(temperature: real, iconName: string, aqiLine: Option<int>)

  /** The tile's body: a spinner while loading, a notice without data, else the reading with an AQI line when there is AQI data. */
  function TileContent(isLoading: bool, weather: Option<WeatherData>, aqi: Option<AqiData>): (r: Content)
    ensures r.Spinner? <==> isLoading
    ensures r.Unavailable? <==> !isLoading && weather.None?
    ensures r.Reading? ==> r.iconName == IconName(weather) && r.temperature == weather.value.temperature
    ensures r.Reading? ==> (r.aqiLine.Some? <==> aqi.Some?) && (aqi.Some? ==> r.aqiLine == Some(aqi.value.usAqi))
  {
    if isLoading then Spinner
    else if weather.None? then Unavailable
    else Reading(weather.value.temperature, IconName(weather), if aqi.Some? then Some(aqi.value.usAqi) else None)
  }
}
