/** WeatherViewModel: the OpenWeather icon code to SF Symbol name table. */
module WeatherIcons {

  /** `iconName(for:)` */
  function IconName(iconCode: string): string
  {
    match iconCode
    case "01d" => "sun.max.fill"
    case "01n" => "moon.stars.fill"
    case "02d" => "cloud.sun.fill"
    case "02n" => "cloud.moon.fill"
    case "03d" => "cloud.fill"
    case "03n" => "cloud.fill"
    case "04d" => "smoke.fill"
    case "04n" => "smoke.fill"
    case "09d" => "cloud.drizzle.fill"
    case "09n" => "cloud.drizzle.fill"
    case "10d" => "cloud.sun.rain.fill"
    case "10n" => "cloud.moon.rain.fill"
    case "11d" => "cloud.bolt.rain.fill"
    case "11n" => "cloud.bolt.rain.fill"
    case "13d" => "cloud.snow.fill"
    case "13n" => "cloud.snow.fill"
    case "50d" => "cloud.fog.fill"
    case "50n" => "cloud.fog.fill"
    case _ => "sun.max.fill"
  }

  /** The codes the table lists. */
  const ListedCodes: set<string> :=
    {"01d", "01n", "02d", "02n", "03d", "03n", "04d", "04n", "09d", "09n",
     "10d", "10n", "11d", "11n", "13d", "13n", "50d", "50n"}

  /** The symbols the table can produce. */
  const Symbols: set<string> :=
    {"sun.max.fill", "moon.stars.fill", "cloud.sun.fill", "cloud.moon.fill", "cloud.fill",
     "smoke.fill", "cloud.drizzle.fill", "cloud.sun.rain.fill", "cloud.moon.rain.fill",
     "cloud.bolt.rain.fill", "cloud.snow.fill", "cloud.fog.fill"}

  /** The table names 12 distinct symbols. */
  lemma SymbolCount()
    ensures |Symbols| == 12
  {
  }

  /** The table lists 18 distinct codes: nine groups, each by day and by night. */
  lemma CodeCount()
    ensures |ListedCodes| == 18
  {
    assert |{"01d", "01n", "02d", "02n", "03d", "03n"}| == 6;
    assert |{"01d", "01n", "02d", "02n", "03d", "03n", "04d", "04n", "09d", "09n", "10d", "10n"}| == 12;
  }

  /** Every symbol is reached by some listed code: none of the 12 is dead. */
  lemma EverySymbolReached(symbol: string)
    requires symbol in Symbols
    ensures exists code :: code in ListedCodes && IconName(code) == symbol
  {
    if symbol == "sun.max.fill" { assert IconName("01d") == symbol; }
    else if symbol == "moon.stars.fill" { assert IconName("01n") == symbol; }
    else if symbol == "cloud.sun.fill" { assert IconName("02d") == symbol; }
    else if symbol == "cloud.moon.fill" { assert IconName("02n") == symbol; }
    else if symbol == "cloud.fill" { assert IconName("03d") == symbol; }
    else if symbol == "smoke.fill" { assert IconName("04d") == symbol; }
    else if symbol == "cloud.drizzle.fill" { assert IconName("09d") == symbol; }
    else if symbol == "cloud.sun.rain.fill" { assert IconName("10d") == symbol; }
    else if symbol == "cloud.moon.rain.fill" { assert IconName("10n") == symbol; }
    else if symbol == "cloud.bolt.rain.fill" { assert IconName("11d") == symbol; }
    else if symbol == "cloud.snow.fill" { assert IconName("13d") == symbol; }
    else { assert IconName("50d") == symbol; }
  }

  lemma AlwaysAListedSymbol(iconCode: string)
    ensures IconName(iconCode) in Symbols
  {
  }

  /** Unlisted codes, the empty code among them, fall back to the sun. */
  lemma UnlistedIsSun(iconCode: string)
    requires iconCode !in ListedCodes
    ensures IconName(iconCode) == "sun.max.fill"
  {
  }

  /** For these groups day and night look the same. */
  lemma DayEqualsNight(group: string)
    requires group in {"03", "04", "09", "11", "13", "50"}
    ensures IconName(group + "d") == IconName(group + "n")
  {
    Suffixed(group);
  }

  /** Clear sky, few clouds and rain have a day and a night symbol. */
  lemma DayDiffersFromNight(group: string)
    requires group in {"01", "02", "10"}
    ensures IconName(group + "d") != IconName(group + "n")
  {
    Suffixed(group);
  }

  /** The day and night codes of a two-character group. */
  lemma Suffixed(group: string)
    requires |group| == 2
    ensures group + "d" == [group[0], group[1], 'd'] && group + "n" == [group[0], group[1], 'n']
  {
  }

  /** One forecast entry of the response. */
  datatype Weather = Weather(description: string, icon: string)

  /** `iconName(for: weather.first?.icon ?? "")` in `fetchWeather`. */
  function IconForResponse(weather: seq<Weather>): (symbol: string)
    ensures weather == [] ==> symbol == "sun.max.fill"
    ensures weather != [] ==> symbol == IconName(weather[0].icon)
  {
    IconName(if weather == [] then "" else weather[0].icon)
  }
}
