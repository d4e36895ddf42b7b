/**
 * The record store and the repository over it.
 *
 * `WeatherStore` stands in for the database table of weather records: an
 * append-only sequence whose appends either commit whole or change nothing,
 * and which keys every record it accepts with an id no other record has.
 * `WeatherRepository` appends through it and answers the "latest N" query,
 * which orders by timestamp, newest first, and keeps the first N.
 */
module Repositories {
  import opened Wrappers
  import opened Models

  /** Whether the backend commits an append or fails it. */
  datatype Commit = Commits | Fails

  /** The keys of a sequence of records. */
  function Ids(s: seq<WeatherRecord>): (ids: set<RecordId>)
    ensures forall k :: 0 <= k < |s| ==> s[k].id in ids
    ensures forall id :: id in ids ==> exists k :: 0 <= k < |s| && s[k].id == id
  {
    set k | 0 <= k < |s| :: s[k].id
  }

  class WeatherStore {
    var records: seq<WeatherRecord>
    var nextId: RecordId

    /**
     * Keys are handed out in order: the record at position `k` holds key
     * `k + 1`, and `nextId` is the key the next append receives. So every
     * stored record is keyed and no two share a key.
     */
    ghost predicate Valid()
      reads this
    {
      && nextId == |records| + 1
      && (forall k :: 0 <= k < |records| ==> records[k].id == k + 1)
    }

    /** In a valid store every record is keyed and no two records share a key. */
    lemma KeysDistinct()
      requires Valid()
      ensures forall k :: 0 <= k < |records| ==> records[k].id != EmptyId
      ensures forall i, j :: 0 <= i < j < |records| ==> records[i].id != records[j].id
    {
    }

    constructor ()
      ensures Valid() && records == []
    {
      records := [];
      nextId := EmptyId + 1;
    }

    /**
     * Adds one record and saves the change. On commit the record is stored
     * under a key no stored record has; on failure nothing is stored.
     */
    method Add(r: WeatherRecord, commit: Commit) returns (saved: Option<RecordId>)
      requires Valid()
      modifies this
      ensures Valid()
      ensures saved.Some? <==> commit == Commits
      ensures saved.None? ==> records == old(records)
      ensures saved.Some? ==>
        && saved.value != EmptyId
        && saved.value !in Ids(old(records))
        && records == old(records) + [r.(id := saved.value)]
    {
      if commit == Fails {
        return None;
      }
      var id := nextId;
      records := records + [r.(id := id)];
      nextId := nextId + 1;
      saved := Some(id);
    }
  }

  /** Newest first: timestamps never increase along `s`. */
  predicate SortedDesc(s: seq<WeatherRecord>)
  {
    forall i, j :: 0 <= i < j < |s| ==> s[i].timestamp >= s[j].timestamp
  }

  /**
   * Places `x` into a newest-first sequence after every record at least as
   * new as `x`, so that among equal timestamps earlier records stay first.
   */
  function InsertDesc(x: WeatherRecord, s: seq<WeatherRecord>): (r: seq<WeatherRecord>)
    requires SortedDesc(s)
    ensures SortedDesc(r)
    ensures multiset(r) == multiset(s) + multiset{x}
    ensures forall e :: e in r <==> e == x || e in s
    ensures |r| == |s| + 1
  {
    if s == [] then [x]
    else if x.timestamp > s[0].timestamp then [x] + s
    else
      var rest := InsertDesc(x, s[1..]);
      assert s == [s[0]] + s[1..];
      TailNoNewer(s);
      ConsSorted(s[0], rest);
      [s[0]] + rest
  }

  /** Nothing after the head of a newest-first sequence is newer than the head. */
  lemma TailNoNewer(s: seq<WeatherRecord>)
    requires SortedDesc(s) && s != []
    ensures forall e :: e in s[1..] ==> e.timestamp <= s[0].timestamp
  {
  }

  /** A record no older than anything in a newest-first sequence can go in front of it. */
  lemma ConsSorted(h: WeatherRecord, rest: seq<WeatherRecord>)
    requires SortedDesc(rest)
    requires forall e :: e in rest ==> e.timestamp <= h.timestamp
    ensures SortedDesc([h] + rest)
  {
  }

  /**
   * Orders the records by timestamp, newest first. The ordering is stable:
   * records with equal timestamps keep their insertion order.
   */
  function OrderByTimestampDesc(s: seq<WeatherRecord>): (r: seq<WeatherRecord>)
    ensures SortedDesc(r)
    ensures multiset(r) == multiset(s)
    ensures |r| == |s|
  {
    if s == [] then []
    else
      assert s == s[..|s| - 1] + [s[|s| - 1]];
      InsertDesc(s[|s| - 1], OrderByTimestampDesc(s[..|s| - 1]))
  }

  /**
   * The `count` newest records, newest first: at most `count` of them, all
   * taken from the store, and none of the records left out is newer than
   * any record returned.
   */
  function Latest(records: seq<WeatherRecord>, count: nat): (r: seq<WeatherRecord>)
    ensures |r| == if count < |records| then count else |records|
    ensures SortedDesc(r)
    ensures multiset(r) <= multiset(records)
    ensures forall e :: e in r ==> e in records
    ensures count >= |records| ==> multiset(r) == multiset(records)
    ensures forall e, k :: e in multiset(records) - multiset(r) && 0 <= k < |r| ==>
      e.timestamp <= r[k].timestamp
  {
    var sorted := OrderByTimestampDesc(records);
    var n := if count < |records| then count else |records|;
    TakeOfSorted(records, sorted, n);
    sorted[..n]
  }

  /**
   * Cutting a newest-first ordering of `records` after `n` records keeps a
   * part of the store, newest first, and what is cut off is no newer than
   * anything kept.
   */
  lemma TakeOfSorted(records: seq<WeatherRecord>, sorted: seq<WeatherRecord>, n: nat)
    requires SortedDesc(sorted) && multiset(sorted) == multiset(records) && n <= |sorted|
    ensures SortedDesc(sorted[..n])
    ensures multiset(sorted[..n]) <= multiset(records)
    ensures forall e :: e in sorted[..n] ==> e in records
    ensures n == |sorted| ==> multiset(sorted[..n]) == multiset(records)
    ensures forall e, k :: e in multiset(records) - multiset(sorted[..n]) && 0 <= k < n ==>
      e.timestamp <= sorted[..n][k].timestamp
  {
    var kept, cut := sorted[..n], sorted[n..];
    assert sorted == kept + cut;
    assert multiset(records) == multiset(kept) + multiset(cut);
    forall e | e in kept
      ensures e in records
    {
      assert e in multiset(records);
    }
    forall e, k | e in multiset(records) - multiset(kept) && 0 <= k < n
      ensures e.timestamp <= kept[k].timestamp
    {
      assert e in multiset(cut);
      var i :| 0 <= i < |cut| && cut[i] == e;
      assert sorted[n + i] == e;
    }
  }

  class WeatherRepository {
    const context: WeatherStore

    constructor (context: WeatherStore)
      ensures this.context == context
    {
      this.context := context;
    }

    /** Appends exactly the given record (keyed by the store); nothing else changes. */
    method SaveWeatherData(r: WeatherRecord, commit: Commit) returns (saved: Option<RecordId>)
      requires context.Valid()
      modifies context
      ensures context.Valid()
      ensures saved.Some? <==> commit == Commits
      ensures saved.None? ==> context.records == old(context.records)
      ensures saved.Some? ==>
        && saved.value != EmptyId
        && saved.value !in Ids(old(context.records))
        && context.records == old(context.records) + [r.(id := saved.value)]
    {
      saved := context.Add(r, commit);
    }

    /** The `count` newest records; the store is only read. */
    method GetLatestWeatherRecords(count: nat) returns (list: seq<WeatherRecord>)
      ensures list == Latest(context.records, count)
    {
      list := Latest(context.records, count);
    }
  }

  /**
   * On an empty store, saving one record through the repository and then
   * asking for the single newest record returns exactly that record, as
   * keyed by the store.
   */
  method SaveThenLatestOne(r: WeatherRecord) returns (saved: Option<RecordId>, latest: seq<WeatherRecord>)
    ensures saved.Some? && saved.value != EmptyId
    ensures latest == [r.(id := saved.value)]
  {
    var store := new WeatherStore();
    var repository := new WeatherRepository(store);
    saved := repository.SaveWeatherData(r, Commits);
    latest := repository.GetLatestWeatherRecords(1);
    var stored := r.(id := saved.value);
    assert latest[0] in multiset([stored]);
  }
}
