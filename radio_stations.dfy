/** Aggregation of the station catalogs fetched from the five radio-browser
    endpoints (the part of `fetchStationsDistributed` after all fetches settled). */
module RadioStations {

  import opened Wrappers

  /** The fields of a radio-browser station that the application reads. */
  datatype Station = Station(
    stationUuid: string,
    name: string,
    url: string,
    urlResolved: string,
    hls: int,                  // 1 when the stream is segmented (HLS)
    clickCount: Option<int>,
    geoLat: Option<real>,
    geoLong: Option<real>)

  /** What one endpoint's fetch settled to. `FetchFailed` is the `null` result: the
      request failed, the status was not ok, the body was not JSON, or the body was
      the literal `null`. Otherwise the decoded body is either an array of stations
      or some other value (an object, a number, `false`, ...). */
  datatype EndpointResult = FetchFailed | JsonArray(stations: seq<Station>) | JsonOther

  /** How the outcome is announced to the user. */
  datatype LoadStatus = Loaded(count: nat) | NoGeoData | AllFailed

  predicate HasGeo(s: Station) {
    s.geoLat.Some? && s.geoLong.Some?
  }

  function Uuids(s: seq<Station>): (r: seq<string>)
    ensures |r| == |s| && forall i :: 0 <= i < |s| ==> r[i] == s[i].stationUuid
  {
    if s == [] then [] else Uuids(s[..|s| - 1]) + [s[|s| - 1].stationUuid]
  }

  /** Every station of the array-shaped results, in endpoint order. */
  function Successful(results: seq<EndpointResult>): seq<Station> {
    if results == [] then []
    else
      var last := results[|results| - 1];
      Successful(results[..|results| - 1]) + (if last.JsonArray? then last.stations else [])
  }

  function SuccessCount(results: seq<EndpointResult>): nat {
    if results == [] then 0
    else SuccessCount(results[..|results| - 1]) + (if results[|results| - 1].JsonArray? then 1 else 0)
  }

  function FailureCount(results: seq<EndpointResult>): nat {
    if results == [] then 0
    else FailureCount(results[..|results| - 1]) + (if results[|results| - 1].FetchFailed? then 1 else 0)
  }

  /** The stations of `s` that are the first with their uuid, in order: the values
      of a JavaScript `Map` filled with "set unless already present". */
  function FirstByUuid(s: seq<Station>): (r: seq<Station>)
    ensures |r| <= |s|
    ensures s != [] ==> r != [] && r[0] == s[0]
  {
    if s == [] then []
    else
      var d := FirstByUuid(s[..|s| - 1]);
      if s[|s| - 1].stationUuid in Uuids(d) then d else d + [s[|s| - 1]]
  }

  function GeoFilter(s: seq<Station>): (r: seq<Station>)
    ensures |r| <= |s|
    ensures forall x :: x in r ==> x in s && HasGeo(x)
    ensures forall x :: x in s && HasGeo(x) ==> x in r
  {
    if s == [] then []
    else GeoFilter(s[..|s| - 1]) + (if HasGeo(s[|s| - 1]) then [s[|s| - 1]] else [])
  }

  /** The choice among the success, warning and error notifications. */
  function Classify(geoCount: nat, successfulFetches: nat): (r: LoadStatus)
    ensures r.Loaded? <==> geoCount > 0
    ensures r.Loaded? ==> r.count == geoCount
    ensures r == NoGeoData <==> geoCount == 0 && successfulFetches > 0
    ensures r == AllFailed <==> geoCount == 0 && successfulFetches == 0
  {
    if geoCount > 0 then Loaded(geoCount)
    else if successfulFetches > 0 then NoGeoData
    else AllFailed
  }

  /** What `fetchStationsDistributed` returns for the settled `results`. */
  function Aggregated(results: seq<EndpointResult>): (r: seq<Station>)
    ensures |r| <= |Successful(results)|
    ensures forall x :: x in r ==> HasGeo(x)
  {
    GeoFilter(FirstByUuid(Successful(results)))
  }

  lemma UuidsAppend(s: seq<Station>, x: Station)
    ensures Uuids(s + [x]) == Uuids(s) + [x.stationUuid]
  {
    assert (s + [x])[..|s|] == s;
  }

  /** The `results.forEach` loop: concatenates the array-shaped results and counts
      the successful and the failed (null) fetches. */
  method MergeResults(results: seq<EndpointResult>)
    returns (allStations: seq<Station>, successfulFetches: nat, failedFetches: nat)
    ensures allStations == Successful(results)
    ensures successfulFetches == SuccessCount(results)
    ensures failedFetches == FailureCount(results)
  {
    allStations, successfulFetches, failedFetches := [], 0, 0;
    var i := 0;
    while i < |results|
      invariant 0 <= i <= |results|
      invariant allStations == Successful(results[..i])
      invariant successfulFetches == SuccessCount(results[..i])
      invariant failedFetches == FailureCount(results[..i])
    {
      assert results[..i + 1][..i] == results[..i];
      match results[i] {
        case JsonArray(stations) =>
          allStations := allStations + stations;
          successfulFetches := successfulFetches + 1;
        case FetchFailed =>
          failedFetches := failedFetches + 1;
        case JsonOther =>
      }
      i := i + 1;
    }
    assert results[..i] == results;
  }

  /** The `stationMap` loop: a station is stored under its uuid unless the uuid is
      already a key. `keys` is the map's insertion order. */
  method BuildStationMap(allStations: seq<Station>)
    returns (stationMap: map<string, Station>, keys: seq<string>)
    ensures keys == Uuids(FirstByUuid(allStations))
    ensures forall u :: u in stationMap <==> u in keys
    ensures forall t :: 0 <= t < |keys| ==> stationMap[keys[t]] == FirstByUuid(allStations)[t]
  {
    stationMap, keys := map[], [];
    ghost var kept: seq<Station> := [];
    var j := 0;
    while j < |allStations|
      invariant 0 <= j <= |allStations|
      invariant kept == FirstByUuid(allStations[..j])
      invariant MapHolds(stationMap, keys, kept)
    {
      FirstByUuidSnoc(allStations, j);
      var station := allStations[j];
      if station.stationUuid !in stationMap {
        MapHoldsStore(stationMap, keys, kept, station);
        kept := kept + [station];
        stationMap := stationMap[station.stationUuid := station];
        keys := keys + [station.stationUuid];
      }
      j := j + 1;
    }
    assert allStations[..j] == allStations;
  }

  /** `stationMap` has exactly the uuids of `kept` as keys, inserted in order, each
      mapped to its station in `kept`. */
  ghost predicate MapHolds(stationMap: map<string, Station>, keys: seq<string>, kept: seq<Station>) {
    && keys == Uuids(kept)
    && (forall u :: u in stationMap <==> u in keys)
    && (forall t :: 0 <= t < |keys| ==> stationMap[keys[t]] == kept[t])
  }

  lemma MapHoldsStore(stationMap: map<string, Station>, keys: seq<string>, kept: seq<Station>, x: Station)
    requires MapHolds(stationMap, keys, kept) && x.stationUuid !in stationMap
    ensures MapHolds(stationMap[x.stationUuid := x], keys + [x.stationUuid], kept + [x])
  {
    UuidsAppend(kept, x);
    var m', keys', kept' := stationMap[x.stationUuid := x], keys + [x.stationUuid], kept + [x];
    forall t | 0 <= t < |keys'|
      ensures m'[keys'[t]] == kept'[t]
    {
      if t < |keys| {
        assert keys'[t] == keys[t] && keys[t] in stationMap;
      }
    }
  }

  lemma FirstByUuidSnoc(s: seq<Station>, j: nat)
    requires j < |s|
    ensures var d := FirstByUuid(s[..j]);
      FirstByUuid(s[..j + 1]) == if s[j].stationUuid in Uuids(d) then d else d + [s[j]]
  {
    assert s[..j + 1][..j] == s[..j];
  }

  /** `Array.from(stationMap.values())`: the stored stations in insertion order. */
  method MapValues(stationMap: map<string, Station>, keys: seq<string>) returns (values: seq<Station>)
    requires forall t :: 0 <= t < |keys| ==> keys[t] in stationMap
    ensures |values| == |keys|
    ensures forall t :: 0 <= t < |keys| ==> values[t] == stationMap[keys[t]]
  {
    values := [];
    var k := 0;
    while k < |keys|
      invariant 0 <= k <= |keys|
      invariant |values| == k
      invariant forall t :: 0 <= t < k ==> values[t] == stationMap[keys[t]]
    {
      values := values + [stationMap[keys[k]]];
      k := k + 1;
    }
  }

  /** The body of `fetchStationsDistributed` once all fetches have settled. */
  method FetchStationsDistributed(results: seq<EndpointResult>)
    returns (geoStations: seq<Station>, status: LoadStatus, successfulFetches: nat, failedFetches: nat)
    ensures successfulFetches == SuccessCount(results)
    ensures failedFetches == FailureCount(results)
    ensures geoStations == Aggregated(results)
    ensures status == Classify(|geoStations|, successfulFetches)
  {
    var allStations;
    allStations, successfulFetches, failedFetches := MergeResults(results);
    var stationMap, keys := BuildStationMap(allStations);
    var uniqueStations := MapValues(stationMap, keys);
    assert uniqueStations == FirstByUuid(allStations);
    geoStations := GeoFilter(uniqueStations);
    status := Classify(|geoStations|, successfulFetches);
  }

  // ---------------------------------------------------------------------------
  // Properties of the aggregation

  predicate UniqueUuids(s: seq<Station>) {
    forall i, j :: 0 <= i < j < |s| ==> s[i].stationUuid != s[j].stationUuid
  }

  /** Position of the first station of `s` with uuid `u`, or `|s|` when there is none. */
  function FirstIndex(s: seq<Station>, u: string): (i: nat)
    ensures i <= |s|
    ensures i < |s| ==> s[i].stationUuid == u
  {
    if s == [] then 0
    else if s[0].stationUuid == u then 0
    else 1 + FirstIndex(s[1..], u)
  }

  /** No station before position `FirstIndex(s, u)` has uuid `u`; the position is
      `|s|` exactly when no station has it. */
  lemma {:induction false} FirstIndexIsFirst(s: seq<Station>, u: string)
    ensures forall k :: 0 <= k < FirstIndex(s, u) ==> s[k].stationUuid != u
    ensures FirstIndex(s, u) == |s| <==> u !in Uuids(s)
  {
    if s != [] {
      assert Uuids(s) == [s[0].stationUuid] + Uuids(s[1..]) by {
        assert forall k :: 0 <= k < |s| ==> Uuids(s)[k] == ([s[0].stationUuid] + Uuids(s[1..]))[k];
      }
      if s[0].stationUuid != u {
        FirstIndexIsFirst(s[1..], u);
        assert forall k :: 1 <= k < |s| ==> s[k] == s[1..][k - 1];
      }
    }
  }

  lemma FirstIndexAppend(s: seq<Station>, x: Station, u: string)
    requires u in Uuids(s)
    ensures FirstIndex(s + [x], u) == FirstIndex(s, u)
  {
    FirstIndexIsFirst(s, u);
    FirstIndexIsFirst(s + [x], u);
    assert (s + [x])[FirstIndex(s, u)] == s[FirstIndex(s, u)];
  }

  lemma FirstIndexOfNew(s: seq<Station>, x: Station)
    requires x.stationUuid !in Uuids(s)
    ensures FirstIndex(s + [x], x.stationUuid) == |s|
  {
    FirstIndexIsFirst(s + [x], x.stationUuid);
    assert forall k :: 0 <= k < |s| ==> (s + [x])[k] == s[k] && Uuids(s)[k] == s[k].stationUuid;
  }

  /** Deduplication keeps one station per uuid, and loses no uuid. */
  lemma {:induction false} FirstByUuidKeepsEveryUuidOnce(s: seq<Station>)
    ensures UniqueUuids(FirstByUuid(s))
    ensures |FirstByUuid(s)| <= |s|
    ensures forall x :: x in FirstByUuid(s) ==> x in s
    ensures forall u :: u in Uuids(s) <==> u in Uuids(FirstByUuid(s))
  {
    if s != [] {
      var p, x := s[..|s| - 1], s[|s| - 1];
      assert s == p + [x];
      FirstByUuidKeepsEveryUuidOnce(p);
      var d := FirstByUuid(p);
      UuidsAppend(p, x);
      if x.stationUuid !in Uuids(d) {
        UuidsAppend(d, x);
        forall i | 0 <= i < |d| ensures d[i].stationUuid != x.stationUuid {
          assert Uuids(d)[i] == d[i].stationUuid;
        }
      }
    }
  }

  /** Each kept station is the first with its uuid. */
  predicate AreFirstOccurrences(d: seq<Station>, s: seq<Station>) {
    forall t :: 0 <= t < |d| ==>
      FirstIndex(s, d[t].stationUuid) < |s| && s[FirstIndex(s, d[t].stationUuid)] == d[t]
  }

  /** Appending a station to `s` does not move the first occurrence of an uuid
      that `s` already has. */
  lemma FirstIndexStable(d: seq<Station>, p: seq<Station>, x: Station)
    requires AreFirstOccurrences(d, p)
    ensures forall t :: 0 <= t < |d| ==> FirstIndex(p + [x], d[t].stationUuid) == FirstIndex(p, d[t].stationUuid)
  {
    forall t | 0 <= t < |d|
      ensures FirstIndex(p + [x], d[t].stationUuid) == FirstIndex(p, d[t].stationUuid)
    {
      assert Uuids(p)[FirstIndex(p, d[t].stationUuid)] == d[t].stationUuid;
      FirstIndexAppend(p, x, d[t].stationUuid);
    }
  }

  /** Appending a station leaves the stations already kept first and in order. */
  lemma KeptStayFirst(d: seq<Station>, p: seq<Station>, x: Station)
    requires AreFirstOccurrences(d, p) && InFirstOccurrenceOrder(d, p)
    ensures AreFirstOccurrences(d, p + [x]) && InFirstOccurrenceOrder(d, p + [x])
  {
    FirstIndexStable(d, p, x);
    assert forall t :: 0 <= t < |d| ==>
      (p + [x])[FirstIndex(p, d[t].stationUuid)] == p[FirstIndex(p, d[t].stationUuid)];
  }

  /** A station with a new uuid is kept after all the others, as its first occurrence. */
  lemma NewKeptLast(d: seq<Station>, p: seq<Station>, x: Station)
    requires AreFirstOccurrences(d, p)
    requires AreFirstOccurrences(d, p + [x]) && InFirstOccurrenceOrder(d, p + [x])
    requires x.stationUuid !in Uuids(p)
    ensures AreFirstOccurrences(d + [x], p + [x]) && InFirstOccurrenceOrder(d + [x], p + [x])
  {
    var s, d' := p + [x], d + [x];
    FirstIndexStable(d, p, x);
    FirstIndexOfNew(p, x);
    assert forall t :: 0 <= t < |d| ==> d'[t] == d[t];
    forall i, j | 0 <= i < j < |d'|
      ensures FirstIndex(s, d'[i].stationUuid) < FirstIndex(s, d'[j].stationUuid)
    {
      if j == |d| {
        assert FirstIndex(s, d'[i].stationUuid) < |p|;
      }
    }
  }

  /** Each kept station is the first with its uuid, and the kept stations are in
      the order of those first occurrences. */
  lemma {:induction false} FirstByUuidKeepsFirstOccurrence(s: seq<Station>)
    ensures AreFirstOccurrences(FirstByUuid(s), s)
    ensures InFirstOccurrenceOrder(FirstByUuid(s), s)
  {
    if s != [] {
      var p, x := s[..|s| - 1], s[|s| - 1];
      assert s == p + [x];
      FirstByUuidKeepsFirstOccurrence(p);
      var d := FirstByUuid(p);
      KeptStayFirst(d, p, x);
      if x.stationUuid !in Uuids(d) {
        FirstByUuidKeepsEveryUuidOnce(p);
        NewKeptLast(d, p, x);
        assert FirstByUuid(s) == d + [x];
      } else {
        assert FirstByUuid(s) == d;
      }
    }
  }

  lemma {:induction false} GeoFilterKeepsUniqueUuids(s: seq<Station>)
    requires UniqueUuids(s)
    ensures UniqueUuids(GeoFilter(s))
  {
    if s != [] {
      var p, x := s[..|s| - 1], s[|s| - 1];
      GeoFilterKeepsUniqueUuids(p);
      if HasGeo(x) {
        var g := GeoFilter(p);
        forall i | 0 <= i < |g| ensures g[i].stationUuid != x.stationUuid {
          assert g[i] in p;
        }
      }
    }
  }

  /** The uuids of `s` first occur in `all` in the order of `s`. */
  predicate InFirstOccurrenceOrder(s: seq<Station>, all: seq<Station>) {
    forall i, j :: 0 <= i < j < |s| ==> FirstIndex(all, s[i].stationUuid) < FirstIndex(all, s[j].stationUuid)
  }

  lemma {:induction false} GeoFilterKeepsOrder(s: seq<Station>, all: seq<Station>)
    requires InFirstOccurrenceOrder(s, all)
    ensures InFirstOccurrenceOrder(GeoFilter(s), all)
  {
    if s != [] {
      var p, x := s[..|s| - 1], s[|s| - 1];
      assert InFirstOccurrenceOrder(p, all) by {
        assert forall k :: 0 <= k < |p| ==> p[k] == s[k];
      }
      GeoFilterKeepsOrder(p, all);
      var g := GeoFilter(p);
      forall i | 0 <= i < |g| ensures FirstIndex(all, g[i].stationUuid) < FirstIndex(all, x.stationUuid) {
        assert g[i] in p;
        var k :| 0 <= k < |p| && p[k] == g[i];
        assert s[k] == g[i];
      }
      assert GeoFilter(s) == g + (if HasGeo(x) then [x] else []);
    }
  }

  /** No two returned stations share a uuid. */
  lemma AggregatedUuidsUnique(results: seq<EndpointResult>)
    ensures UniqueUuids(Aggregated(results))
  {
    FirstByUuidKeepsEveryUuidOnce(Successful(results));
    GeoFilterKeepsUniqueUuids(FirstByUuid(Successful(results)));
  }

  /** Every returned station has both coordinates; there are at most as many as
      the successful endpoints delivered. */
  lemma AggregatedBounds(results: seq<EndpointResult>)
    ensures forall x :: x in Aggregated(results) ==> HasGeo(x) && x in Successful(results)
    ensures |Aggregated(results)| <= |Successful(results)|
  {
    FirstByUuidKeepsEveryUuidOnce(Successful(results));
  }

  /** Each returned station is the first station with its uuid in the concatenated
      results. */
  lemma AggregatedAreFirstOccurrences(results: seq<EndpointResult>)
    ensures var all := Successful(results);
      forall x :: x in Aggregated(results) ==>
        FirstIndex(all, x.stationUuid) < |all| && all[FirstIndex(all, x.stationUuid)] == x
  {
    var all := Successful(results);
    var d := FirstByUuid(all);
    FirstByUuidKeepsFirstOccurrence(all);
    forall x | x in GeoFilter(d)
      ensures FirstIndex(all, x.stationUuid) < |all| && all[FirstIndex(all, x.stationUuid)] == x
    {
      var t :| 0 <= t < |d| && d[t] == x;
    }
  }

  /** The returned stations come in the order of their uuids' first occurrences. */
  lemma AggregatedInFirstOccurrenceOrder(results: seq<EndpointResult>)
    ensures InFirstOccurrenceOrder(Aggregated(results), Successful(results))
  {
    var all := Successful(results);
    FirstByUuidKeepsFirstOccurrence(all);
    GeoFilterKeepsOrder(FirstByUuid(all), all);
  }

  /** A uuid is returned exactly when its first occurrence has both coordinates: a
      later duplicate that has them does not bring it back. */
  lemma AggregatedUuidIff(results: seq<EndpointResult>, u: string)
    ensures var all := Successful(results);
      u in Uuids(Aggregated(results)) <==>
        FirstIndex(all, u) < |all| && HasGeo(all[FirstIndex(all, u)])
  {
    var all := Successful(results);
    var d := FirstByUuid(all);
    var out := Aggregated(results);
    FirstByUuidKeepsEveryUuidOnce(all);
    FirstByUuidKeepsFirstOccurrence(all);
    FirstIndexIsFirst(all, u);
    if u in Uuids(out) {
      var t :| 0 <= t < |out| && Uuids(out)[t] == u;
      assert out[t] in d;
      var k :| 0 <= k < |d| && d[k] == out[t];
    }
    if FirstIndex(all, u) < |all| && HasGeo(all[FirstIndex(all, u)]) {
      assert Uuids(all)[FirstIndex(all, u)] == u;
      var t :| 0 <= t < |d| && Uuids(d)[t] == u;
      assert d[t] in d;
      assert d[t] in out;
      var k :| 0 <= k < |out| && out[k] == d[t];
      assert Uuids(out)[k] == u;
    }
  }

  /** With no array-shaped result there is nothing to return. */
  lemma {:induction false} NoSuccessMeansNoStations(results: seq<EndpointResult>)
    requires SuccessCount(results) == 0
    ensures Successful(results) == [] && Aggregated(results) == []
  {
    if results != [] {
      NoSuccessMeansNoStations(results[..|results| - 1]);
    }
  }

  /** The notification: success when stations remain, a warning when some endpoint
      answered with an array but no station survived, an error when none did; the
      all-failed case still returns an empty list. */
  lemma StatusMeaning(results: seq<EndpointResult>)
    ensures var st, out := Classify(|Aggregated(results)|, SuccessCount(results)), Aggregated(results);
      && (st.Loaded? <==> out != [])
      && (st.Loaded? ==> st.count == |out|)
      && (st == NoGeoData <==> out == [] && SuccessCount(results) > 0)
      && (st == AllFailed <==> SuccessCount(results) == 0)
      && (st == AllFailed ==> out == [])
  {
    if SuccessCount(results) == 0 {
      NoSuccessMeansNoStations(results);
    }
  }

  /** Array-shaped results count as successes and `null` ones as failures; any other
      value counts as neither. */
  lemma {:induction false} FetchCounts(results: seq<EndpointResult>)
    ensures SuccessCount(results) + FailureCount(results) <= |results|
    ensures SuccessCount(results) + FailureCount(results) == |results| <==>
      forall i :: 0 <= i < |results| ==> !results[i].JsonOther?
    ensures (forall i :: 0 <= i < |results| ==> results[i].FetchFailed?) ==> FailureCount(results) == |results|
  {
    if results != [] {
      var p := results[..|results| - 1];
      FetchCounts(p);
      assert forall i :: 0 <= i < |p| ==> p[i] == results[i];
    }
  }
}
