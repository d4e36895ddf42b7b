/**
 * One polling cycle: for each location in order, fetch the provider's
 * response, map it to a record and store it, isolating every failure to
 * its own location.
 *
 * The outside world a cycle meets at location `i` is given as `envs[i]`:
 * whether the cancellation token reads as requested at the top of that
 * iteration, the HTTP reply the provider gives, what the UTC clock reads if
 * the record is built, and whether the store commits the append.
 */
module Services {
  import opened Wrappers
  import opened Models
  import opened Repositories
  import opened Sequences

  /** A polling target. */
  datatype Location = Location(country: string, city: string, lat: real, lon: real)

  /** The coordinates an outbound request for a location carries. */
  datatype Request = Request(lat: real, lon: real)

  /** A response body as JSON text reads: unparsable, the literal `null`, or an object. */
  datatype JsonBody = Unparsable | JsonNull | JsonObject(main: MainSection, others: WeatherResponse)

  /** What the HTTP call yields: a status and body, or a transport-level exception. */
  datatype HttpReply = Reply(status: int, body: JsonBody) | TransportError

  /** The exceptions a fetch can raise. */
  datatype FetchError =
    | ProviderError(status: int)   // non-success HTTP status
    | MalformedResponse            // body is not valid JSON for a response
    | NullResponse                 // body deserialised to null
    | Transport                    // the request itself failed

  /** The environment of one loop iteration. */
  datatype Env = Env(cancelled: bool, reply: HttpReply, now: Timestamp, commit: Commit)

  /** Success statuses are 200 through 299. */
  predicate IsSuccessStatusCode(status: int)
  {
    200 <= status <= 299
  }

  /**
   * Classifies the outcome of one fetch: a non-success status, an
   * unparsable body, a null deserialisation and a transport failure are
   * errors; any JSON object binds to a response.
   */
  function GetWeatherData(reply: HttpReply): (r: Result<WeatherResponse, FetchError>)
    ensures r.Success? <==> reply.Reply? && IsSuccessStatusCode(reply.status) && reply.body.JsonObject?
    ensures r.Success? ==> r.value == Bind(reply.body.main, reply.body.others)
    ensures r.Failure? && r.error.ProviderError? <==> reply.Reply? && !IsSuccessStatusCode(reply.status)
    ensures r.Failure? && r.error.ProviderError? ==> r.error.status == reply.status
  {
    match reply
    case TransportError => Failure(Transport)
    case Reply(status, body) =>
      if !IsSuccessStatusCode(status) then Failure(ProviderError(status))
      else
        match body
        case Unparsable => Failure(MalformedResponse)
        case JsonNull => Failure(NullResponse)
        case JsonObject(main, others) => Success(Bind(main, others))
  }

  /**
   * The record a response maps to, or `None` when its `main` is null. The
   * record is not yet keyed; its place and time come from the caller, not
   * from the response.
   */
  function BuildRecord(country: string, city: string, data: WeatherResponse, now: Timestamp): (r: Option<WeatherRecord>)
    ensures r.Some? <==> data.main.Some?
    ensures r.Some? ==>
      && r.value.id == EmptyId
      && r.value.country == country && r.value.city == city
      && r.value.minTemp == data.main.value.tempMin
      && r.value.maxTemp == data.main.value.tempMax
      && r.value.currentTemp == data.main.value.temp
      && r.value.humidity == data.main.value.humidity
      && r.value.timestamp == now
  {
    match data.main
    case None => None
    case Some(m) =>
      Some(DefaultRecord.(timestamp := now, country := country, city := city,
                          minTemp := m.tempMin, maxTemp := m.tempMax,
                          currentTemp := m.temp, humidity := m.humidity))
  }

  /** A location's outcome succeeds: fetched, `main` present, append committed. */
  predicate Succeeds(loc: Location, env: Env)
  {
    && GetWeatherData(env.reply).Success?
    && GetWeatherData(env.reply).value.main.Some?
    && env.commit == Commits
  }

  /** The records one location adds to the store (before keying): one on success, none otherwise. */
  function Contribution(loc: Location, env: Env): (r: seq<WeatherRecord>)
    ensures |r| <= 1
    ensures |r| == 1 <==> Succeeds(loc, env)
    ensures |r| == 1 ==>
      BuildRecord(loc.country, loc.city, GetWeatherData(env.reply).value, env.now) == Some(r[0])
  {
    match GetWeatherData(env.reply)
    case Failure(_) => []
    case Success(data) =>
      match BuildRecord(loc.country, loc.city, data, env.now)
      case None => []
      case Some(rec) => if env.commit == Commits then [rec] else []
  }

  /** Index of the first iteration that observes cancellation, or `|envs|` if none does. */
  function Stop(envs: seq<Env>): (n: nat)
    ensures n <= |envs|
    ensures forall k :: 0 <= k < n ==> !envs[k].cancelled
    ensures n < |envs| ==> envs[n].cancelled
  {
    if envs == [] || envs[0].cancelled then 0 else 1 + Stop(envs[1..])
  }

  /** What each location would add to the store, location by location. */
  function Outcomes(locs: seq<Location>, envs: seq<Env>): (p: seq<seq<WeatherRecord>>)
    requires |locs| == |envs|
    ensures |p| == |locs|
  {
    if locs == [] then []
    else Outcomes(locs[..|locs| - 1], envs[..|envs| - 1]) + [Contribution(locs[|locs| - 1], envs[|envs| - 1])]
  }

  /** Entry `k` of the outcomes is location `k`'s contribution. */
  lemma {:induction false} OutcomesAt(locs: seq<Location>, envs: seq<Env>, k: nat)
    requires |locs| == |envs| && k < |locs|
    ensures Outcomes(locs, envs)[k] == Contribution(locs[k], envs[k])
  {
    var n := |locs| - 1;
    if k < n {
      OutcomesAt(locs[..n], envs[..n], k);
    }
  }

  /** Locations and environments that agree up to `n` have the same first `n` outcomes. */
  lemma OutcomesAgree(locs: seq<Location>, envs: seq<Env>, locs': seq<Location>, envs': seq<Env>, n: nat)
    requires |locs| == |envs| && |locs'| == |envs'| && n <= |locs| && n <= |locs'|
    requires forall k :: 0 <= k < n ==> locs'[k] == locs[k] && envs'[k] == envs[k]
    ensures Outcomes(locs', envs')[..n] == Outcomes(locs, envs)[..n]
  {
    forall k | 0 <= k < n
      ensures Outcomes(locs', envs')[k] == Outcomes(locs, envs)[k]
    {
      OutcomesAt(locs, envs, k);
      OutcomesAt(locs', envs', k);
    }
  }

  /** The records a whole cycle appends: those of the locations processed before cancellation, in order. */
  function Ingest(locs: seq<Location>, envs: seq<Env>): seq<WeatherRecord>
    requires |locs| == |envs|
  {
    Flatten(Outcomes(locs, envs)[..Stop(envs)])
  }

  /** The outbound requests for the given locations, in order. */
  function Requests(locs: seq<Location>): (r: seq<Request>)
    ensures |r| == |locs|
    ensures forall k :: 0 <= k < |locs| ==> r[k] == Request(locs[k].lat, locs[k].lon)
  {
    seq(|locs|, k requires 0 <= k < |locs| => Request(locs[k].lat, locs[k].lon))
  }

  /** The places (country, city) of the given locations, in order. */
  function Places(locs: seq<Location>): (p: seq<(string, string)>)
    ensures |p| == |locs|
    ensures forall k :: 0 <= k < |locs| ==> p[k] == (locs[k].country, locs[k].city)
  {
    seq(|locs|, k requires 0 <= k < |locs| => (locs[k].country, locs[k].city))
  }

  /** A record with its key cleared: what the service built before the store keyed it. */
  function Unkeyed(s: seq<WeatherRecord>): (r: seq<WeatherRecord>)
    ensures |r| == |s|
    ensures forall k :: 0 <= k < |s| ==> r[k] == s[k].(id := EmptyId)
  {
    seq(|s|, k requires 0 <= k < |s| => s[k].(id := EmptyId))
  }

  class WeatherService {
    const context: WeatherStore

    constructor (context: WeatherStore)
      ensures this.context == context
    {
      this.context := context;
    }

    /**
     * Runs one cycle over `locations`. Processing stops at the first
     * iteration that observes cancellation; every earlier location is
     * fetched once, in order, and whatever fails for it is absorbed there.
     * The store ends as before, followed by one record per succeeding
     * location in location order.
     */
    method PollWeatherData(locations: seq<Location>, envs: seq<Env>) returns (requests: seq<Request>)
      requires |envs| == |locations|
      requires context.Valid()
      modifies context
      ensures context.Valid()
      ensures requests == Requests(locations[..Stop(envs)])
      ensures old(context.records) <= context.records
      ensures Unkeyed(context.records) == Unkeyed(old(context.records)) + Ingest(locations, envs)
    {
      ghost var start := context.records;
      requests := [];
      var i := 0;
      while i < |locations|
        invariant 0 <= i <= Stop(envs)
        invariant context.Valid()
        invariant requests == Requests(locations[..i])
        invariant start <= context.records
        invariant Unkeyed(context.records) == Unkeyed(start) + Flatten(Outcomes(locations, envs)[..i])
      {
        if envs[i].cancelled {
          break;
        }
        StopPast(envs, i);
        ghost var before := context.records;
        var request := PollLocation(locations[i], envs[i]);
        requests := requests + [request];
        RequestsStep(locations, i);
        CycleStep(locations, envs, i);
        Chain(start, before, context.records);
        Regroup(Unkeyed(context.records), Unkeyed(before), Unkeyed(start),
                Flatten(Outcomes(locations, envs)[..i]), Contribution(locations[i], envs[i]));
        i := i + 1;
      }
      assert i == Stop(envs);
    }

    /**
     * One iteration of the cycle: request the location's weather and store
     * it. Whatever fails is absorbed here; the store gains the location's
     * contribution and nothing else.
     */
    method PollLocation(location: Location, env: Env) returns (request: Request)
      requires context.Valid()
      modifies context
      ensures context.Valid()
      ensures request == Request(location.lat, location.lon)
      ensures old(context.records) <= context.records
      ensures Unkeyed(context.records) == Unkeyed(old(context.records)) + Contribution(location, env)
    {
      request := Request(location.lat, location.lon);
      match GetWeatherData(env.reply) {
        case Failure(_) =>
        case Success(weatherData) =>
          var _ := SaveWeatherDataToDatabase(location.country, location.city, weatherData, env.now, env.commit);
      }
    }

    /**
     * Maps a response to a record stamped with `now` and appends it. A null
     * `main` returns normally without storing anything; a failed commit is
     * reported to the caller.
     */
    method SaveWeatherDataToDatabase(country: string, city: string, weatherData: WeatherResponse, now: Timestamp, commit: Commit)
      returns (outcome: Result<(), Commit>)
      requires context.Valid()
      modifies context
      ensures context.Valid()
      ensures outcome.Failure? <==> weatherData.main.Some? && commit == Fails
      ensures weatherData.main.None? || commit == Fails ==> context.records == old(context.records)
      ensures weatherData.main.Some? && commit == Commits ==>
        && |context.records| == |old(context.records)| + 1
        && old(context.records) <= context.records
        && Some(context.records[|old(context.records)|].(id := EmptyId)) == BuildRecord(country, city, weatherData, now)
    {
      var record := BuildRecord(country, city, weatherData, now);
      if record.None? {
        return Success(());
      }
      var saved := context.Add(record.value, commit);
      outcome := if saved.Some? then Success(()) else Failure(commit);
    }
  }

  /** `Stop` is the first index that observes cancellation, and only that index is. */
  lemma StopIsFirstCancellation(envs: seq<Env>, n: nat)
    requires n <= |envs|
    requires forall k :: 0 <= k < n ==> !envs[k].cancelled
    requires n < |envs| ==> envs[n].cancelled
    ensures Stop(envs) == n
  {
  }

  /** The requests for one more location are those before it, then its own. */
  lemma RequestsStep(locs: seq<Location>, i: nat)
    requires i < |locs|
    ensures Requests(locs[..i + 1]) == Requests(locs[..i]) + [Request(locs[i].lat, locs[i].lon)]
  {
  }

  /** The records of one more location are those before it, then its own. */
  lemma CycleStep(locs: seq<Location>, envs: seq<Env>, i: nat)
    requires |locs| == |envs| && i < |locs|
    ensures Flatten(Outcomes(locs, envs)[..i + 1]) == Flatten(Outcomes(locs, envs)[..i]) + Contribution(locs[i], envs[i])
  {
    var p := Outcomes(locs, envs);
    assert p[..i + 1][..i] == p[..i];
    OutcomesAt(locs, envs, i);
  }

  /** An iteration that does not observe cancellation lies before `Stop`. */
  lemma StopPast(envs: seq<Env>, i: nat)
    requires i <= Stop(envs) && i < |envs| && !envs[i].cancelled
    ensures i < Stop(envs)
  {
  }

  /**
   * Failure isolation: whatever happens at location `j` (short of
   * cancellation), the records of every other location are the same and
   * stay in place around location `j`'s own contribution.
   */
  lemma FailureIsolation(locs: seq<Location>, envs: seq<Env>, j: nat, e: Env)
    requires |locs| == |envs| && j < Stop(envs) && !e.cancelled
    ensures Stop(envs[j := e]) == Stop(envs)
    ensures var p := Outcomes(locs, envs);
      Ingest(locs, envs[j := e]) == Flatten(p[..j]) + Contribution(locs[j], e) + Flatten(p[j + 1..Stop(envs)])
  {
    var envs' := envs[j := e];
    var n := Stop(envs);
    StopIsFirstCancellation(envs', n);
    var p, p' := Outcomes(locs, envs)[..n], Outcomes(locs, envs')[..n];
    forall k | 0 <= k < n
      ensures p'[k] == p[j := Contribution(locs[j], e)][k]
    {
      OutcomesAt(locs, envs, k);
      OutcomesAt(locs, envs', k);
    }
    assert p' == p[j := Contribution(locs[j], e)];
    FlattenUpdate(p, j, Contribution(locs[j], e));
    assert p[..j] == Outcomes(locs, envs)[..j];
    assert p[j + 1..] == Outcomes(locs, envs)[j + 1..n];
  }

  /** Once iteration `i` observes cancellation, no location from `i` on is fetched or recorded. */
  lemma CancellationCutsCycle(locs: seq<Location>, envs: seq<Env>, locs': seq<Location>, envs': seq<Env>, i: nat)
    requires |locs| == |envs| && |locs'| == |envs'| && i < |envs| && i < |envs'|
    requires envs[i].cancelled
    requires forall k :: 0 <= k <= i ==> locs'[k] == locs[k] && envs'[k] == envs[k]
    ensures Stop(envs) <= i && Stop(envs') == Stop(envs)
    ensures locs'[..Stop(envs')] == locs[..Stop(envs)]
    ensures Ingest(locs', envs') == Ingest(locs, envs)
  {
    var n := Stop(envs);
    StopIsFirstCancellation(envs', n);
    OutcomesAgree(locs, envs, locs', envs', n);
  }

  /** Without cancellation every location is processed, so every location is fetched once, in order. */
  lemma NoCancellationFetchesAll(locs: seq<Location>, envs: seq<Env>)
    requires |locs| == |envs|
    requires forall k :: 0 <= k < |envs| ==> !envs[k].cancelled
    ensures Stop(envs) == |envs|
    ensures Requests(locs[..Stop(envs)]) == Requests(locs)
    ensures Ingest(locs, envs) == Flatten(Outcomes(locs, envs))
  {
    assert locs[..|locs|] == locs;
    assert Outcomes(locs, envs)[..|envs|] == Outcomes(locs, envs);
  }

  /** A succeeding location contributes exactly one record. */
  lemma SuccessContributesOne(loc: Location, env: Env)
    requires Succeeds(loc, env)
    ensures |Contribution(loc, env)| == 1
  {
  }

  /** A failing location contributes nothing. */
  lemma FailureContributesNothing(loc: Location, env: Env)
    requires !Succeeds(loc, env)
    ensures Contribution(loc, env) == []
  {
  }

  /** A stored record carries the place of its location and the clock reading. */
  lemma ContributionStamp(loc: Location, env: Env, r: WeatherRecord)
    requires r in Contribution(loc, env)
    ensures r.country == loc.country && r.city == loc.city && r.timestamp == env.now
  {
  }

  /**
   * Without cancellation, when every location but `j` succeeds and `j`
   * fails, the cycle stores exactly the records of the other locations,
   * one each, in location order.
   */
  lemma OneFailureAmongMany(locs: seq<Location>, envs: seq<Env>, j: nat)
    requires |locs| == |envs| && j < |locs|
    requires forall k :: 0 <= k < |envs| ==> !envs[k].cancelled
    requires forall k :: 0 <= k < |locs| && k != j ==> Succeeds(locs[k], envs[k])
    requires !Succeeds(locs[j], envs[j])
    ensures |Ingest(locs, envs)| == |locs| - 1
    ensures forall k :: 0 <= k < |locs| && k != j ==>
      GetWeatherData(envs[k].reply).Success? &&
      Some(Ingest(locs, envs)[if k < j then k else k - 1]) ==
        BuildRecord(locs[k].country, locs[k].city, GetWeatherData(envs[k].reply).value, envs[k].now)
  {
    var p := Outcomes(locs, envs);
    NoCancellationFetchesAll(locs, envs);
    forall k | 0 <= k < |p| && k != j
      ensures |p[k]| == 1
    {
      OutcomesAt(locs, envs, k);
      SuccessContributesOne(locs[k], envs[k]);
    }
    OutcomesAt(locs, envs, j);
    FailureContributesNothing(locs[j], envs[j]);
    OneEmptyPart(p, j);
    forall k | 0 <= k < |locs| && k != j
      ensures GetWeatherData(envs[k].reply).Success? &&
        Some(Ingest(locs, envs)[if k < j then k else k - 1]) ==
          BuildRecord(locs[k].country, locs[k].city, GetWeatherData(envs[k].reply).value, envs[k].now)
    {
      OutcomesAt(locs, envs, k);
      SuccessContributesOne(locs[k], envs[k]);
    }
  }

  /**
   * Without cancellation, when every location succeeds, the cycle stores
   * one record per location, in location order, each built from that
   * location's response and clock reading.
   */
  lemma AllSucceedStoresEach(locs: seq<Location>, envs: seq<Env>)
    requires |locs| == |envs|
    requires forall k :: 0 <= k < |envs| ==> !envs[k].cancelled
    requires forall k :: 0 <= k < |locs| ==> Succeeds(locs[k], envs[k])
    ensures |Ingest(locs, envs)| == |locs|
    ensures forall k :: 0 <= k < |locs| ==>
      GetWeatherData(envs[k].reply).Success? &&
      Some(Ingest(locs, envs)[k]) == BuildRecord(locs[k].country, locs[k].city, GetWeatherData(envs[k].reply).value, envs[k].now)
  {
    var p := Outcomes(locs, envs);
    NoCancellationFetchesAll(locs, envs);
    forall k | 0 <= k < |p|
      ensures |p[k]| == 1
    {
      OutcomesAt(locs, envs, k);
      SuccessContributesOne(locs[k], envs[k]);
    }
    FlattenSingletons(p);
    forall k | 0 <= k < |locs|
      ensures GetWeatherData(envs[k].reply).Success? &&
        Some(Ingest(locs, envs)[k]) == BuildRecord(locs[k].country, locs[k].city, GetWeatherData(envs[k].reply).value, envs[k].now)
    {
      OutcomesAt(locs, envs, k);
      SuccessContributesOne(locs[k], envs[k]);
    }
  }

  /**
   * A successful body without a `"main"` key is still stored: the record
   * holds zero temperatures and zero humidity.
   */
  lemma MissingMainIsStoredAsZeros(loc: Location, env: Env, status: int, others: WeatherResponse)
    requires env.reply == Reply(status, JsonObject(Absent, others)) && IsSuccessStatusCode(status)
    requires env.commit == Commits
    ensures Contribution(loc, env) ==
      [WeatherRecord(EmptyId, loc.country, loc.city, 0.0, 0.0, 0.0, 0, env.now)]
  {
    MissingMainReadsAsZeros(others);
  }

  /** Only an explicit `"main": null` takes the skip branch: nothing is stored. */
  lemma NullMainIsSkipped(loc: Location, env: Env, status: int, others: WeatherResponse)
    requires env.reply == Reply(status, JsonObject(Null, others))
    ensures Contribution(loc, env) == []
  {
  }

  /**
   * The stored timestamp is the clock reading, not any time the provider
   * reports: responses that differ only in `dt` store the same record.
   */
  lemma TimestampIsClockReading(loc: Location, env: Env, dt: int)
    requires env.reply.Reply? && env.reply.body.JsonObject?
    ensures var body := env.reply.body;
      var env' := env.(reply := env.reply.(body := body.(others := body.others.(dt := dt))));
      Contribution(loc, env') == Contribution(loc, env)
    ensures forall r :: r in Contribution(loc, env) ==> r.timestamp == env.now
  {
  }
}
