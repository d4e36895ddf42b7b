/**
 * The background job: while cancellation has not been requested, run one
 * polling cycle over the fixed location registry, then wait.
 *
 * The job's outside world is a script of rounds. Round `k` says whether
 * the token reads as requested at the loop head, what cycle `k` meets at
 * each location, and whether the token fires during the wait that follows.
 * The one-minute wait itself is a single step.
 */
module PollingJob {
  import opened Wrappers
  import opened Models
  import opened Repositories
  import opened Services
  import opened Sequences

  /** The location registry, in polling order. */
  const Locations: seq<Location> := [
    Location("US", "New York", 40.7128, -74.0060),
    Location("US", "Los Angeles", 34.0522, -118.2437),
    Location("FR", "Paris", 48.8566, 2.3522),
    Location("FR", "Marseille", 43.2965, 5.3698),
    Location("GB", "London", 51.5074, -0.1278),
    Location("GB", "Manchester", 53.4808, -2.2426)
  ]

  /** The outside world of one turn of the job's loop. */
  datatype Round = Round(cancelledAtHead: bool, cycle: seq<Env>, cancelledInDelay: bool)

  /** What the job does, in the order it does it. */
  datatype JobEvent =
    | Polled(requests: seq<Request>)   // a cycle ran to completion, making these requests in order
    | Delayed(interrupted: bool)       // the wait ended, early if the token fired

  /** The wait was cut short by the token. */
  datatype TaskCanceled = TaskCanceled

  /** Every round supplies one environment per registry location. */
  predicate WellFormed(script: seq<Round>)
  {
    forall k :: 0 <= k < |script| ==> |script[k].cycle| == |Locations|
  }

  /**
   * A cancellation token is never reset: once a cycle observes it, the
   * following wait is cut short, and once a wait is cut short the next loop
   * head observes it.
   */
  predicate TokenMonotone(script: seq<Round>)
  {
    && (forall k :: 0 <= k < |script| && Stop(script[k].cycle) < |script[k].cycle| ==> script[k].cancelledInDelay)
    && (forall k :: 0 < k < |script| && script[k - 1].cancelledInDelay ==> script[k].cancelledAtHead)
  }

  /** Index of the first round whose loop head observes cancellation, or `|script|`. */
  function Rounds(script: seq<Round>): (n: nat)
    ensures n <= |script|
    ensures forall k :: 0 <= k < n ==> !script[k].cancelledAtHead
    ensures n < |script| ==> script[n].cancelledAtHead
  {
    if script == [] || script[0].cancelledAtHead then 0 else 1 + Rounds(script[1..])
  }

  /** The requests one cycle over the registry makes: those of the locations before its first cancellation. */
  function CycleRequests(cycle: seq<Env>): (r: seq<Request>)
    requires |cycle| == |Locations|
    ensures Stop(cycle) == |cycle| ==> r == Requests(Locations)
  {
    assert Locations[..|Locations|] == Locations;
    Requests(Locations[..Stop(cycle)])
  }

  /** The events of the first `n` rounds: each a cycle over the registry, awaited to completion, then a wait. */
  function TraceOf(script: seq<Round>, n: nat): seq<JobEvent>
    requires WellFormed(script) && n <= |script|
  {
    if n == 0 then []
    else TraceOf(script, n - 1) + [Polled(CycleRequests(script[n - 1].cycle)), Delayed(script[n - 1].cancelledInDelay)]
  }

  /** The records (before keying) the first `n` rounds append, round after round. */
  function RecordsOf(script: seq<Round>, n: nat): seq<WeatherRecord>
    requires WellFormed(script) && n <= |script|
  {
    if n == 0 then []
    else RecordsOf(script, n - 1) + Ingest(Locations, script[n - 1].cycle)
  }

  /**
   * The one-minute wait between cycles, awaited with the job's token: it
   * ends normally, or with `TaskCanceled` when the token fires during it.
   */
  function Delay(interrupted: bool): (r: Result<(), TaskCanceled>)
    ensures r.Failure? <==> interrupted
  {
    if interrupted then Failure(TaskCanceled) else Success(())
  }

  class WeatherPollingJob {
    const weatherService: WeatherService

    constructor (weatherService: WeatherService)
      ensures this.weatherService == weatherService
    {
      this.weatherService := weatherService;
    }

    /**
     * Runs rounds until a loop head observes cancellation (`stopped`) or the
     * script ends. The store ends as before, followed by the records of the
     * cycles that ran, in order.
     */
    method ExecuteAsync(script: seq<Round>) returns (trace: seq<JobEvent>, stopped: bool)
      requires WellFormed(script)
      requires weatherService.context.Valid()
      modifies weatherService.context
      ensures weatherService.context.Valid()
      ensures trace == TraceOf(script, Rounds(script))
      ensures stopped <==> Rounds(script) < |script|
      ensures old(weatherService.context.records) <= weatherService.context.records
      ensures Unkeyed(weatherService.context.records) ==
        Unkeyed(old(weatherService.context.records)) + RecordsOf(script, Rounds(script))
    {
      var store := weatherService.context;
      ghost var start := store.records;
      trace := [];
      var i := 0;
      while i < |script| && !script[i].cancelledAtHead
        invariant 0 <= i <= Rounds(script)
        invariant store.Valid()
        invariant trace == TraceOf(script, i)
        invariant start <= store.records
        invariant Unkeyed(store.records) == Unkeyed(start) + RecordsOf(script, i)
      {
        RoundsPast(script, i);
        ghost var before := store.records;
        var events := RunRound(script[i]);
        trace := trace + events;
        Chain(start, before, store.records);
        Regroup(Unkeyed(store.records), Unkeyed(before), Unkeyed(start), RecordsOf(script, i), Ingest(Locations, script[i].cycle));
        i := i + 1;
      }
      stopped := i < |script|;
    }

    /**
     * One turn of the loop: a whole cycle over the registry, awaited to
     * completion, then the wait. An interrupted wait is caught here and
     * goes no further.
     */
    method RunRound(round: Round) returns (events: seq<JobEvent>)
      requires |round.cycle| == |Locations|
      requires weatherService.context.Valid()
      modifies weatherService.context
      ensures weatherService.context.Valid()
      ensures events == [Polled(CycleRequests(round.cycle)), Delayed(round.cancelledInDelay)]
      ensures old(weatherService.context.records) <= weatherService.context.records
      ensures Unkeyed(weatherService.context.records) ==
        Unkeyed(old(weatherService.context.records)) + Ingest(Locations, round.cycle)
    {
      var requests := weatherService.PollWeatherData(Locations, round.cycle);
      events := [Polled(requests)];
      // try { await Delay } catch (TaskCanceledException) { log only }:
      // either way the turn ends normally and the loop head decides.
      var delay := Delay(round.cancelledInDelay);
      match delay {
        case Failure(TaskCanceled) =>
        case Success(_) =>
      }
      events := events + [Delayed(delay.Failure?)];
    }
  }

  /**
   * The shape of the job's history: round after round, a cycle over the
   * registry, then a wait. A cycle always finishes before the wait and the
   * next cycle, so cycles never overlap; a cycle that observes no
   * cancellation requests every registry location, in registry order.
   */
  lemma {:induction false} TraceShape(script: seq<Round>, n: nat)
    requires WellFormed(script) && n <= |script|
    ensures |TraceOf(script, n)| == 2 * n
    ensures forall k :: 0 <= k < n ==>
      TraceOf(script, n)[2 * k] == Polled(CycleRequests(script[k].cycle)) &&
      TraceOf(script, n)[2 * k + 1] == Delayed(script[k].cancelledInDelay)
    ensures forall k :: 0 <= k < n && Stop(script[k].cycle) == |Locations| ==>
      TraceOf(script, n)[2 * k] == Polled(Requests(Locations))
  {
    if n > 0 {
      TraceShape(script, n - 1);
    }
  }

  /** Unless cancelled at the start, the job runs its first cycle before any wait. */
  lemma {:induction false} FirstCycleBeforeAnyDelay(script: seq<Round>)
    requires WellFormed(script) && |script| > 0 && !script[0].cancelledAtHead
    ensures Rounds(script) >= 1
    ensures TraceOf(script, Rounds(script))[0] == Polled(CycleRequests(script[0].cycle))
  {
    assert Rounds(script) == 1 + Rounds(script[1..]);
    TraceShape(script, Rounds(script));
  }

  /** A loop head that does not observe cancellation lies before `Rounds`. */
  lemma RoundsPast(script: seq<Round>, i: nat)
    requires i <= Rounds(script) && i < |script| && !script[i].cancelledAtHead
    ensures i < Rounds(script)
  {
  }

  /** `Rounds` is the first round whose loop head observes cancellation. */
  lemma RoundsIsFirstCancellation(script: seq<Round>, n: nat)
    requires n <= |script|
    requires forall k :: 0 <= k < n ==> !script[k].cancelledAtHead
    requires n < |script| ==> script[n].cancelledAtHead
    ensures Rounds(script) == n
  {
  }

  /** A cancellation caught during a wait ends the job: no further cycle starts. */
  lemma DelayCancellationEndsJob(script: seq<Round>, k: nat)
    requires TokenMonotone(script)
    requires k < Rounds(script) && k + 1 < |script| && script[k].cancelledInDelay
    ensures Rounds(script) == k + 1
  {
    RoundsIsFirstCancellation(script, k + 1);
  }

  /** A cancellation a cycle observes between locations ends the job after that cycle. */
  lemma CycleCancellationEndsJob(script: seq<Round>, k: nat)
    requires TokenMonotone(script)
    requires k < Rounds(script) && k + 1 < |script|
    requires Stop(script[k].cycle) < |script[k].cycle|
    ensures Rounds(script) == k + 1
  {
    DelayCancellationEndsJob(script, k);
  }

  /**
   * A provider outage that answers every request with a non-success
   * status adds no records, however many rounds the job runs.
   */
  lemma {:induction false} OutageStoresNothing(script: seq<Round>, n: nat)
    requires WellFormed(script) && n <= |script|
    requires forall k :: 0 <= k < |script| ==> Outage(script[k].cycle)
    ensures RecordsOf(script, n) == []
  {
    if n > 0 {
      OutageStoresNothing(script, n - 1);
      OutageCycle(script[n - 1].cycle);
    }
  }

  /** The provider answers every request of a cycle with a non-success status. */
  predicate Outage(envs: seq<Env>)
  {
    forall i :: 0 <= i < |envs| ==> envs[i].reply.Reply? && !IsSuccessStatusCode(envs[i].reply.status)
  }

  /** One cycle against a provider that answers every request with a non-success status stores nothing. */
  lemma OutageCycle(envs: seq<Env>)
    requires |envs| == |Locations| && Outage(envs)
    ensures Ingest(Locations, envs) == []
  {
    var parts := Outcomes(Locations, envs)[..Stop(envs)];
    forall k | 0 <= k < |parts|
      ensures parts[k] == []
    {
      OutcomesAt(Locations, envs, k);
      FailureContributesNothing(Locations[k], envs[k]);
    }
    FlattenEmpty(parts);
  }

  /** The registry's places, in order; no two locations share one. */
  lemma RegistryPlaces()
    ensures Places(Locations) == [("US", "New York"), ("US", "Los Angeles"), ("FR", "Paris"),
                                  ("FR", "Marseille"), ("GB", "London"), ("GB", "Manchester")]
    ensures forall i, j :: 0 <= i < j < |Locations| ==> Places(Locations)[i] != Places(Locations)[j]
  {
  }

  /**
   * When one of the six registry locations answers with a non-success
   * status and the other five succeed, a cycle stores exactly five
   * records: those of the other five locations, one each, in registry
   * order, and none for the failing location.
   */
  lemma OneOutageAmongSix(envs: seq<Env>, j: nat)
    requires |envs| == |Locations| && j < |Locations|
    requires forall k :: 0 <= k < |envs| ==> !envs[k].cancelled
    requires forall k :: 0 <= k < |envs| && k != j ==> Succeeds(Locations[k], envs[k])
    requires envs[j].reply.Reply? && !IsSuccessStatusCode(envs[j].reply.status)
    ensures |Ingest(Locations, envs)| == 5
    ensures forall k :: 0 <= k < |Locations| && k != j ==>
      GetWeatherData(envs[k].reply).Success? &&
      Some(Ingest(Locations, envs)[if k < j then k else k - 1]) ==
        BuildRecord(Locations[k].country, Locations[k].city, GetWeatherData(envs[k].reply).value, envs[k].now)
    ensures forall r :: r in Ingest(Locations, envs) ==>
      (r.country, r.city) != (Locations[j].country, Locations[j].city)
  {
    OneFailureAmongMany(Locations, envs, j);
    RegistryPlaces();
    var stored := Ingest(Locations, envs);
    forall r | r in stored
      ensures (r.country, r.city) != (Locations[j].country, Locations[j].city)
    {
      var i :| 0 <= i < |stored| && stored[i] == r;
      var k := if i < j then i else i + 1;
      assert Some(r) == BuildRecord(Locations[k].country, Locations[k].city, GetWeatherData(envs[k].reply).value, envs[k].now);
      assert Places(Locations)[k] == (r.country, r.city);
    }
  }

  /**
   * A single New York location whose provider reports 280.1, 285.4 and
   * 283.2 Kelvin and 55% humidity yields exactly one record carrying those
   * values, stamped with the clock reading.
   */
  lemma NewYorkScenario(env: Env, feelsLike: real, pressure: int, seaLevel: int, grndLevel: int, others: WeatherResponse)
    requires !env.cancelled && env.commit == Commits
    requires env.reply == Reply(200, JsonObject(Present(Main(283.2, feelsLike, 280.1, 285.4, pressure, 55, seaLevel, grndLevel)), others))
    ensures Ingest([Locations[0]], [env]) ==
      [WeatherRecord(EmptyId, "US", "New York", 280.1, 285.4, 283.2, 55, env.now)]
  {
    assert Stop([env]) == 1 by {
      StopIsFirstCancellation([env], 1);
    }
    var parts := Outcomes([Locations[0]], [env])[..1];
    OutcomesAt([Locations[0]], [env], 0);
    assert parts == [Contribution(Locations[0], env)];
    assert parts[..0] == [];
    assert Flatten(parts) == Flatten([]) + Contribution(Locations[0], env);
  }
}
