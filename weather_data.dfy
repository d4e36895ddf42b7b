/**
 * The persisted weather record and the shape of the weather provider's
 * response, with the default values a freshly constructed object holds.
 *
 * Temperatures are `real` and are only ever copied, never computed with.
 * Timestamps are instants counted in ticks, as `int`.
 */
module Models {
  import opened Wrappers

  /** A temperature in the provider's native unit (Kelvin). */
  type Temperature = real

  /** A UTC instant, in ticks. The default instant is 0. */
  type Timestamp = int

  /** A record key. `EmptyId` is the key of a record nobody has keyed yet. */
  type RecordId = nat

  const EmptyId: RecordId := 0

  /**
   * One persisted observation. `humidity` is an unbounded integer: no range
   * is enforced anywhere.
   */
  datatype WeatherRecord = WeatherRecord(
    id: RecordId,
    country: string,
    city: string,
    minTemp: Temperature,
    maxTemp: Temperature,
    currentTemp: Temperature,
    humidity: int,
    timestamp: Timestamp)

  /** A record as `new WeatherRecord()` leaves it: empty strings, never null. */
  const DefaultRecord := WeatherRecord(EmptyId, "", "", 0.0, 0.0, 0.0, 0, 0)

  datatype Coord = Coord(lon: real, lat: real)

  datatype WeatherCondition = WeatherCondition(id: int, main: string, description: string, icon: string)

  /** The provider's `main` section: the only part of a response that is stored. */
  datatype Main = Main(
    temp: Temperature,
    feelsLike: Temperature,
    tempMin: Temperature,
    tempMax: Temperature,
    pressure: int,
    humidity: int,
    seaLevel: int,
    grndLevel: int)

  const DefaultMain := Main(0.0, 0.0, 0.0, 0.0, 0, 0, 0, 0)

  datatype Wind = Wind(speed: real, deg: int, gust: real)

  datatype Clouds = Clouds(all: int)

  datatype Sys = Sys(kind: int, id: int, country: string, sunrise: int, sunset: int)

  /**
   * A deserialised provider response. `main` is `None` exactly when the
   * reference is null; every other member is a value.
   */
  datatype WeatherResponse = WeatherResponse(
    coord: Coord,
    weather: seq<WeatherCondition>,
    base: string,
    main: Option<Main>,
    visibility: int,
    wind: Wind,
    clouds: Clouds,
    dt: int,
    sys: Sys,
    timezone: int,
    id: int,
    name: string,
    cod: int)

  /** A response as `new WeatherResponse()` leaves it: `main` already holds an object. */
  const DefaultResponse := WeatherResponse(
    Coord(0.0, 0.0), [], "", Some(DefaultMain), 0, Wind(0.0, 0, 0.0), Clouds(0),
    0, Sys(0, 0, "", 0, 0), 0, 0, "", 0)

  /**
   * How the `"main"` key appears in a JSON body: missing, the literal
   * `null`, or an object.
   */
  datatype MainSection = Absent | Null | Present(section: Main)

  /**
   * The `main` member after deserialisation. A missing key keeps the
   * initialiser's object; only an explicit `null` overwrites it with null.
   */
  function BindMain(s: MainSection): (m: Option<Main>)
    ensures m.None? <==> s.Null?
    ensures s.Absent? ==> m == DefaultResponse.main
    ensures s.Present? ==> m == Some(s.section)
  {
    match s
    case Absent => DefaultResponse.main
    case Null => None
    case Present(section) => Some(section)
  }

  /**
   * Binds a JSON object onto a response: `others` holds what every key
   * other than `"main"` deserialised to, `main` how that key appeared.
   */
  function Bind(main: MainSection, others: WeatherResponse): (r: WeatherResponse)
    ensures r.main == BindMain(main)
    ensures r.(main := others.main) == others
  {
    others.(main := BindMain(main))
  }

  /**
   * A body with no `"main"` key yields a `main` whose temperatures and
   * humidity are all zero.
   */
  lemma MissingMainReadsAsZeros(others: WeatherResponse)
    ensures Bind(Absent, others).main.Some?
    ensures var m := Bind(Absent, others).main.value;
      m.temp == 0.0 && m.tempMin == 0.0 && m.tempMax == 0.0 && m.humidity == 0
  {
  }
}
