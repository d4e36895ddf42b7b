/**
 * The read path: ask the repository for the six newest records and turn
 * the answer into one of three responses.
 */
module Controllers {
  import opened Wrappers
  import opened Models
  import opened Repositories

  /** How many records the read path always asks for. */
  const LatestCount: nat := 6

  const NotFoundMessage := "No weather data found."

  const ServerErrorPrefix := "Internal server error: "

  /** What the repository call gives back: a list, a null list, or an exception with its message. */
  datatype QueryResult = Rows(list: seq<WeatherRecord>) | NullList | Raised(message: string)

  /** The three responses of the read path. */
  datatype ActionResult =
    | Ok(records: seq<WeatherRecord>)
    | NotFound(message: string)
    | StatusCode(code: int, message: string)

  /**
   * A null or empty list is "not found", never an empty success; a
   * non-empty list is returned as it is; an exception becomes status 500.
   */
  function Respond(q: QueryResult): (a: ActionResult)
    ensures a.NotFound? <==> q.NullList? || q == Rows([])
    ensures a.NotFound? ==> a.message == NotFoundMessage
    ensures a.Ok? <==> q.Rows? && q.list != []
    ensures a.Ok? ==> a.records == q.list
    ensures a.StatusCode? <==> q.Raised?
    ensures a.StatusCode? ==> a.code == 500 && a.message == ServerErrorPrefix + q.message
  {
    match q
    case Raised(message) => StatusCode(500, ServerErrorPrefix + message)
    case NullList => NotFound(NotFoundMessage)
    case Rows(list) => if list == [] then NotFound(NotFoundMessage) else Ok(list)
  }

  /**
   * The latest-records endpoint over a store holding `records`; `fault` is
   * the message of the exception the repository raises, if it raises one.
   * An empty store gives "not found"; otherwise the response carries the
   * store's newest records, at most six, newest first.
   */
  function GetLatestWeatherData(records: seq<WeatherRecord>, fault: Option<string>): (a: ActionResult)
    ensures a.StatusCode? <==> fault.Some?
    ensures a.StatusCode? ==> a.code == 500
    ensures a.NotFound? <==> fault.None? && records == []
    ensures a.Ok? <==> fault.None? && records != []
    ensures a.Ok? ==>
      && a.records == Latest(records, LatestCount)
      && 0 < |a.records| <= LatestCount
      && SortedDesc(a.records)
      && multiset(a.records) <= multiset(records)
      && (|records| <= LatestCount ==> multiset(a.records) == multiset(records))
  {
    var q := if fault.Some? then Raised(fault.value) else Rows(Latest(records, LatestCount));
    Respond(q)
  }
}
