/** WeatherResponse and GeocodingResponse: the computed properties of the decoded JSON. */
module WeatherData {
  import opened Wrappers
  import WeatherIcons

  datatype Main = Main(temp: real, feelsLike: real, humidity: int, pressure: int)

  /** Unix timestamps in seconds. */
  datatype Sys = Sys(sunrise: int, sunset: int)

  datatype WeatherResponse = WeatherResponse(
    weather: seq<WeatherIcons.Weather>,
    main: Main,
    sys: Sys,
    name: string)

  /** Foundation's Date, as seconds since 1970-01-01 00:00 UTC. */
  datatype Date = Date(timeIntervalSince1970: real)

  function SunsetDate(r: WeatherResponse): (d: Date)
    ensures d.timeIntervalSince1970 == r.sys.sunset as real
  {
    Date(r.sys.sunset as real)
  }

  function SunriseDate(r: WeatherResponse): (d: Date)
    ensures d.timeIntervalSince1970 == r.sys.sunrise as real
  {
    Date(r.sys.sunrise as real)
  }

  datatype GeocodingResponse = GeocodingResponse(
    name: string,
    localNames: Option<map<string, string>>,
    lat: real,
    lon: real,
    country: string)

  /** `local_names?["ru"] ?? name` */
  function RussianName(g: GeocodingResponse): (r: string)
    ensures g.localNames.Some? && "ru" in g.localNames.value ==> r == g.localNames.value["ru"]
    ensures g.localNames.None? ==> r == g.name
    ensures g.localNames.Some? && "ru" !in g.localNames.value ==> r == g.name
  {
    match g.localNames
    case Some(names) => if "ru" in names then names["ru"] else g.name
    case None => g.name
  }
}
