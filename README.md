# Weather ingestion pipeline — a Dafny model

This project models the sequential core of a small weather-ingestion service.

- A background job polls a weather provider for six fixed locations, in order.
- After each cycle has finished, it waits one minute before starting the next.
- It maps each successful response to a `WeatherRecord` and appends it to a store.
- A read endpoint returns the six newest records, newest first.

The model keeps the program's own structure: one Dafny module per source file.

| module | file | source |
|---|---|---|
| `Models` | `weather_data.dfy` | `Models/WeatherData.cs` |
| `Repositories` | `weather_repository.dfy` | `Repositories/WeatherRepository.cs` |
| `Services` | `weather_service.dfy` | `Services/WeatherService.cs` |
| `Controllers` | `weather_controller.dfy` | `Controllers/WeatherController.cs` |
| `PollingJob` | `weather_polling_job.dfy` | `Services/WeatherPollingJob.cs` |

Two more modules are helpers. `Wrappers` holds `Option` and `Result`. `Sequences` holds the flattening of a sequence of sequences and its lemmas.

The data classes become datatypes. The parts of the code that change state become classes with `modifies` clauses:
- the store (`WeatherStore`);
- the polling cycle (`WeatherService.PollWeatherData`, a loop);
- the job (`WeatherPollingJob.ExecuteAsync`, a loop).

Each loop is proved against a specification function:
- one polling cycle appends exactly `Ingest(locations, envs)`;
- a whole run of the job appends `RecordsOf(script, Rounds(script))` and produces the event trace `TraceOf(script, Rounds(script))`.

Lemmas then state the promised properties about those functions:
- failure isolation;
- cancellation cut-off;
- stored fields and timestamps;
- the order of cycles and waits.

The outside world enters as data: an `Env` per loop iteration. It holds:
- whether the cancellation token reads as requested at the top of the iteration;
- the HTTP reply;
- the UTC clock reading;
- whether the database commits the append.

For the job, a `Round` per turn of its loop says the same for the loop head, the cycle and the wait.

## Model

| member | source | states |
|---|---|---|
| Models.BindMain | Models/WeatherData.cs:51-52 | `main` is null exactly when the body says `"main": null`; a missing key keeps the initialiser's default `Main` object; a present section is bound as given |
| Models.Bind | Models/WeatherData.cs:40-80 | binding a JSON object sets `main` as `BindMain` says and leaves every other member as deserialised |
| Models.MissingMainReadsAsZeros | Models/WeatherData.cs:52 | a body without `"main"` yields a non-null `Main` whose `Temp`, `TempMin`, `TempMax` and `Humidity` are all zero |
| Repositories.WeatherStore.KeysDistinct | Models/WeatherData.cs:16-17 | in a well-formed store every record has a non-empty key and no two records share a key |
| Repositories.WeatherStore.Add | Repositories/WeatherRepository.cs:19-20 | a committed append stores exactly the given record, keyed with a fresh non-empty id, after all existing records; a failed commit changes nothing; the store invariant (keys present and distinct) is kept |
| Repositories.WeatherRepository.SaveWeatherData | Repositories/WeatherRepository.cs:17-21 | appends exactly the given record, keyed by the store, and leaves the existing records unchanged; on a failed commit nothing is stored |
| Repositories.InsertDesc | Repositories/WeatherRepository.cs:26 | inserting into a newest-first sequence keeps it newest first, adds exactly the new record (as a multiset), and grows it by one |
| Repositories.OrderByTimestampDesc | Repositories/WeatherRepository.cs:26 | the result is ordered by timestamp, newest first, and is a permutation of the input |
| Repositories.Latest | Repositories/WeatherRepository.cs:25-28 | returns min(count, size) records, newest first, all taken from the store (as a multiset), all of them when the store holds at most `count`, and no record left out is newer than any record returned |
| Repositories.TakeOfSorted | Repositories/WeatherRepository.cs:26-27 | cutting a newest-first ordering after `n` records keeps a sub-multiset of the store, and nothing cut off is newer than anything kept |
| Repositories.WeatherRepository.GetLatestWeatherRecords | Repositories/WeatherRepository.cs:23-29 | returns `Latest(store, count)` and, having no `modifies` clause, does not change the store |
| Repositories.SaveThenLatestOne | Repositories/WeatherRepository.cs:17-29 | a method that drives the repository: on a fresh store, `SaveWeatherData` commits, hands out a non-empty id, and `GetLatestWeatherRecords(1)` then returns exactly the saved record under that id |
| Services.GetWeatherData | Services/WeatherService.cs:40-52 | a fetch succeeds exactly when the status is 2xx and the body is a JSON object, and then yields the bound response; a non-2xx status is exactly the provider-error case and carries that status |
| Services.BuildRecord | Services/WeatherService.cs:56-71 | a record is built exactly when `Main` is non-null; its place comes from the location, `MinTemp`/`MaxTemp`/`CurrentTemp`/`Humidity` copy `TempMin`/`TempMax`/`Temp`/`Humidity`, its timestamp is the clock reading, and its id is still empty |
| Services.Contribution | Services/WeatherService.cs:28-36 | one location adds at most one record, exactly one when the fetch succeeds with a non-null `Main` and the commit goes through, and that record is the one `BuildRecord` makes |
| Services.Stop | Services/WeatherService.cs:24-26 | the index of the first iteration that observes cancellation (or the list length): every earlier iteration observes none |
| Services.StopIsFirstCancellation | Services/WeatherService.cs:26 | the first cancelled iteration is unique, so it is `Stop` |
| Services.WeatherService.PollWeatherData | Services/WeatherService.cs:22-38 | the cycle requests exactly the locations before the first cancellation, in order; the store keeps its old records as a prefix and gains exactly `Ingest(locations, envs)`; no failure escapes |
| Services.WeatherService.PollLocation | Services/WeatherService.cs:28-36 | one iteration requests the location's coordinates and adds exactly that location's contribution, absorbing every failure |
| Services.WeatherService.SaveWeatherDataToDatabase | Services/WeatherService.cs:54-75 | a null `Main` returns normally and stores nothing; otherwise exactly one record, the one `BuildRecord` makes, is appended, unless the commit fails, which is reported |
| Services.Outcomes | Services/WeatherService.cs:24-37 | one outcome per location, in list order |
| Services.OutcomesAt | Services/WeatherService.cs:24-37 | entry `k` of the outcomes is location `k`'s contribution |
| Services.OutcomesAgree | Services/WeatherService.cs:24-37 | what a prefix of locations contributes depends on those locations and their environments alone |
| Services.FailureIsolation | Services/WeatherService.cs:28-36 | whatever happens at one location short of cancellation, every other location's records stay the same and in place around it |
| Services.CancellationCutsCycle | Services/WeatherService.cs:26 | once an iteration observes cancellation, no location from there on is requested or recorded: later locations and environments do not matter |
| Services.NoCancellationFetchesAll | Services/WeatherService.cs:24-37 | without cancellation every location is requested exactly once, in list order, and every location's outcome counts |
| Services.SuccessContributesOne | Services/WeatherService.cs:62-74 | a succeeding location appends exactly one record |
| Services.FailureContributesNothing | Services/WeatherService.cs:33-36 | a failing location appends nothing |
| Services.ContributionStamp | Services/WeatherService.cs:64-66 | a stored record carries its location's country and city and the clock reading |
| Services.OneFailureAmongMany | Services/WeatherService.cs:28-36 | without cancellation, if every location but one succeeds, the cycle stores exactly the other locations' records, one each and in location order, each the one `BuildRecord` makes from that location's response and clock reading; the failing location has no slot |
| Services.AllSucceedStoresEach | Services/WeatherService.cs:24-37 | without cancellation, if every location succeeds, record `k` is the one built from location `k`'s response and clock reading |
| Services.MissingMainIsStoredAsZeros | Services/WeatherService.cs:56-74 | a 2xx body without a `"main"` key is stored, with zero temperatures and zero humidity |
| Services.NullMainIsSkipped | Services/WeatherService.cs:56-60 | a body with `"main": null` stores nothing |
| Services.TimestampIsClockReading | Services/WeatherService.cs:64 | the stored timestamp is the clock reading: the provider's `dt` has no effect on what is stored |
| Controllers.Respond | Controllers/WeatherController.cs:35-53 | a null or empty list gives NotFound("No weather data found."), never an empty Ok; a non-empty list gives Ok with exactly that list; an exception gives status 500 with the message |
| Controllers.GetLatestWeatherData | Controllers/WeatherController.cs:33-54 | asks for exactly 6 records; an empty store gives NotFound; otherwise Ok carries `Latest(store, 6)`: 1 to 6 records, newest first, all from the store; a repository exception gives 500 |
| PollingJob.Rounds | Services/WeatherPollingJob.cs:27 | the number of turns the loop makes: the first round whose loop head observes cancellation |
| PollingJob.RoundsIsFirstCancellation | Services/WeatherPollingJob.cs:27 | the first cancelled loop head is unique, so it is `Rounds` |
| PollingJob.CycleRequests | Services/WeatherService.cs:24-30 | the requests of one cycle over the registry; when no iteration observes cancellation, they are the requests for all six locations |
| PollingJob.Delay | Services/WeatherPollingJob.cs:37 | the wait ends with `TaskCanceled` exactly when the token fires during it |
| PollingJob.WeatherPollingJob.ExecuteAsync | Services/WeatherPollingJob.cs:23-46 | the loop runs exactly the rounds before the first cancelled loop head; the trace is `TraceOf` those rounds; the store gains exactly their cycles' records, in order; the job stops exactly when a loop head observes cancellation |
| PollingJob.WeatherPollingJob.RunRound | Services/WeatherPollingJob.cs:29-42 | one turn runs a whole cycle over the registry and logs the requests that cycle actually made (those before its first cancellation), then the wait, whose cancellation is caught and logged so the turn ends normally; the store gains exactly the cycle's records |
| PollingJob.TraceShape | Services/WeatherPollingJob.cs:27-43 | the history alternates a finished cycle with a wait, so cycles never overlap; each cycle's requests are the registry locations before that cycle's first cancellation, and a cycle that observes no cancellation requests all six, in registry order |
| PollingJob.FirstCycleBeforeAnyDelay | Services/WeatherPollingJob.cs:27-32 | if not cancelled at start, the first thing the job does is the first round's cycle, with that cycle's requests, before any wait |
| PollingJob.DelayCancellationEndsJob | Services/WeatherPollingJob.cs:35-42 | a cancellation caught during a wait does not propagate, and no further cycle starts |
| PollingJob.CycleCancellationEndsJob | Services/WeatherPollingJob.cs:27-32 | a cancellation a cycle observes ends the job after that cycle |
| PollingJob.OutageCycle | Services/WeatherService.cs:45-48 | one cycle in which every reply has a non-success status stores nothing |
| PollingJob.OutageStoresNothing | Services/WeatherPollingJob.cs:27-43 | a provider outage adds no records, however many rounds the job runs |
| PollingJob.RegistryPlaces | Services/WeatherPollingJob.cs:7-15 | the registry is New York, Los Angeles, Paris, Marseille, London and Manchester, in that order, and no two share a place |
| PollingJob.OneOutageAmongSix | Services/WeatherPollingJob.cs:7-15 | with one of the six locations failing and five succeeding, a cycle stores exactly five records: the other five locations' records, in registry order, each built from its own response, and none carries the failing location's place |
| PollingJob.NewYorkScenario | Services/WeatherService.cs:62-74 | a New York reply of 280.1 / 285.4 / 283.2 K and 55 % humidity stores exactly that record, stamped with the clock reading |

## Left out

- HTTP, URL construction and JSON parsing are not modelled. A reply is a status with a body classified as unparsable, `null` or an object. An object is given as its `"main"` section (absent, null or present) plus what every other key deserialised to.
- The database (EF Core over SQLite) is not modelled. The store is an in-memory sequence whose append commits whole or not at all; whether it commits is an input. The schema, its column lengths and the migration are not modelled.
- `Repositories.WeatherStore.Add`: a failed commit changes nothing in the model's store, but the database context keeps tracking the entity it was asked to add. The next `SaveChangesAsync` on the same context tries it again. So in the source a record whose save failed may still be stored by a later commit, or may make later commits fail too. "A failed commit changes nothing" and `Services.FailureIsolation` hold for the model's store only; this carry-over between commits is not modelled.
- Record ids are random GUIDs in the source. Here the store hands out consecutive positive numbers, and callers see only that the id is fresh and non-empty. `EmptyId` (0) stands for `Guid.Empty`. Cycle results are compared with ids cleared (`Unkeyed`), because the store, not the service, picks them.
- `Task`, `await`, the one-minute `Task.Delay` and logging are not modelled. The wait is one step, whose interruption is an input.
- The cancellation token is read only where the source reads it. That is the loop head of the job, the top of each iteration of a cycle, and the wait. Each reading is an input.
- `PollingJob.WeatherPollingJob.ExecuteAsync`: the source loop runs until cancellation. The model runs a finite script of rounds, and `stopped` is false when the script ends first.
- `Repositories.Latest`: `count` is a `nat`. The negative count the source type allows is not modelled; the only caller passes 6.
- `Repositories.OrderByTimestampDesc`: the order among equal timestamps is the stable, insertion-order one. The database may return ties in another order; the contracts of `Latest` do not depend on how ties are ordered.
- `Services.MissingMainIsStoredAsZeros`: the model follows the code. A 2xx body without a `"main"` key keeps the initialiser's default `Main`, so a record of zeros is stored. The null check and its warning at Services/WeatherService.cs:56-58 suggest that such a body was meant to be skipped; only `"main": null` is skipped as written.
- Temperatures are `real` and only ever copied. Floating-point behaviour is not modelled.
- `Humidity` is an unbounded integer. 32-bit width is not modelled, because no arithmetic is done on it.
- Functions/WeatherPollingFunction.cs, a timer-triggered copy of the job with its own copy of the registry, is not part of this model.
- Program.cs and the interfaces are not part of this model. The service does not implement `IWeatherService` and writes to the database context directly. Here the service and the repository share one `WeatherStore`.
- The web front end is not part of this model.
