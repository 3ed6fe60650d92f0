/** The nearby-station ranking of `FullMap.tsx`: the stations around the selected
    balloon, most clicked first. */
module NearbyStations {

  import opened Wrappers
  import opened RadioStations
  import opened Windborne

  const SearchRadiusKm: real := 500.0
  const MaxFilteredResults: nat := 10

  /** A station with its distance from the selected balloon. */
  datatype RankedStation = RankedStation(station: Station, distance: real)

  /** The distance in kilometres between (lat1, lng1) and (lat2, lng2); the
      haversine formula itself is not part of this model. */
  type Distance = (real, real, real, real) -> real

  /** `station.clickcount || 0`. */
  function Clicks(r: RankedStation): int {
    r.station.clickCount.GetOr(0)
  }

  /** A located station with its distance from `b`. */
  function Ranked(b: Balloon, s: Station, dist: Distance): RankedStation
    requires HasGeo(s)
  {
    RankedStation(s, dist(b.lat, b.lng, s.geoLat.value, s.geoLong.value))
  }

  /** The `map`/`filter` step: stations without both coordinates are dropped before
      any distance is computed; the others keep their order and get their distance
      from `b`. */
  function WithDistance(b: Balloon, stations: seq<Station>, dist: Distance): (r: seq<RankedStation>)
    ensures var kept := IndicesWhere(stations, HasGeo);
      |r| == |kept| && forall j :: 0 <= j < |r| ==> r[j] == Ranked(b, stations[kept[j]], dist)
    ensures forall x :: x in r ==>
      x.station in stations && HasGeo(x.station) && x == Ranked(b, x.station, dist)
    ensures forall s :: s in stations && HasGeo(s) ==> Ranked(b, s, dist) in r
  {
    if stations == [] then []
    else
      var prev, s := stations[..|stations| - 1], stations[|stations| - 1];
      assert stations == prev + [s];
      IndicesWhereAppend(prev, s, HasGeo);
      WithDistanceStep(b, prev, s, dist, WithDistance(b, prev, dist));
      WithDistance(b, prev, dist) + (if HasGeo(s) then [Ranked(b, s, dist)] else [])
  }

  /** The step of `WithDistance` from `prev` to `prev + [s]`. */
  lemma WithDistanceStep(b: Balloon, prev: seq<Station>, s: Station, dist: Distance, rp: seq<RankedStation>)
    requires var kept := IndicesWhere(prev, HasGeo);
      |rp| == |kept| && forall j :: 0 <= j < |rp| ==> rp[j] == Ranked(b, prev[kept[j]], dist)
    ensures var kept := IndicesWhere(prev, HasGeo) + (if HasGeo(s) then [|prev|] else []);
      var r := rp + (if HasGeo(s) then [Ranked(b, s, dist)] else []);
      |r| == |kept| && forall j :: 0 <= j < |r| ==> r[j] == Ranked(b, (prev + [s])[kept[j]], dist)
  {
    var kp := IndicesWhere(prev, HasGeo);
    var kept := kp + (if HasGeo(s) then [|prev|] else []);
    var r := rp + (if HasGeo(s) then [Ranked(b, s, dist)] else []);
    forall j | 0 <= j < |r| ensures r[j] == Ranked(b, (prev + [s])[kept[j]], dist) {
      if j < |rp| {
        assert kept[j] == kp[j] && kp[j] < |prev|;
        assert (prev + [s])[kp[j]] == prev[kp[j]];
      } else {
        assert kept[j] == |prev|;
      }
    }
  }

  /** Within the search radius. */
  predicate InRadius(r: RankedStation) {
    r.distance <= SearchRadiusKm
  }

  /** The radius `filter`: the entries within 500 km, in their order. */
  function WithinRadius(rs: seq<RankedStation>): (r: seq<RankedStation>)
    ensures var kept := IndicesWhere(rs, InRadius);
      |r| == |kept| && forall j :: 0 <= j < |r| ==> r[j] == rs[kept[j]]
    ensures multiset(r) <= multiset(rs)
    ensures forall x :: x in r <==> x in rs && InRadius(x)
  {
    if rs == [] then []
    else
      var prev := rs[..|rs| - 1];
      assert rs == prev + [rs[|rs| - 1]];
      assert forall i :: 0 <= i < |prev| ==> prev[i] == rs[i];
      WithinRadius(prev) + (if InRadius(rs[|rs| - 1]) then [rs[|rs| - 1]] else [])
  }

  /** Inserts `x` before the first entry whose click count is not above its own,
      so that it follows every entry with a higher count. */
  function Insert(x: RankedStation, rs: seq<RankedStation>): (r: seq<RankedStation>)
    ensures |r| == |rs| + 1
  {
    if rs == [] then [x]
    else if Clicks(rs[0]) <= Clicks(x) then [x] + rs
    else [rs[0]] + Insert(x, rs[1..])
  }

  /** The `sort` with comparator `(b.clickcount || 0) - (a.clickcount || 0)`:
      descending click counts. `Array.prototype.sort` is stable; so is this insertion sort. */
  function SortByClicks(rs: seq<RankedStation>): (r: seq<RankedStation>)
    ensures |r| == |rs|
  {
    if rs == [] then [] else Insert(rs[0], SortByClicks(rs[1..]))
  }

  /** The ranking effect: empty without a selected balloon or without stations. */
  function Nearby(selected: Option<Balloon>, stations: seq<Station>, dist: Distance): (r: seq<RankedStation>)
    ensures selected.None? || stations == [] ==> r == []
  {
    if selected.Some? && |stations| > 0 then
      var sorted := SortByClicks(WithinRadius(WithDistance(selected.value, stations, dist)));
      if |sorted| <= MaxFilteredResults then sorted else sorted[..MaxFilteredResults]
    else []
  }

  // ---------------------------------------------------------------------------
  // Properties of the sort

  predicate SortedByClicks(rs: seq<RankedStation>) {
    forall i, j :: 0 <= i < j < |rs| ==> Clicks(rs[i]) >= Clicks(rs[j])
  }

  /** The entries with click count `c`, in order. */
  function WithClicks(rs: seq<RankedStation>, c: int): seq<RankedStation> {
    if rs == [] then []
    else (if Clicks(rs[0]) == c then [rs[0]] else []) + WithClicks(rs[1..], c)
  }

  lemma {:induction false} InsertMultiset(x: RankedStation, rs: seq<RankedStation>)
    ensures multiset(Insert(x, rs)) == multiset(rs) + multiset{x}
  {
    if rs != [] && Clicks(rs[0]) > Clicks(x) {
      InsertMultiset(x, rs[1..]);
      assert rs == [rs[0]] + rs[1..];
    }
  }

  predicate ClicksAtMost(rs: seq<RankedStation>, c: int) {
    forall i :: 0 <= i < |rs| ==> Clicks(rs[i]) <= c
  }

  lemma SortedCons(h: RankedStation, t: seq<RankedStation>)
    ensures SortedByClicks([h] + t) <==> SortedByClicks(t) && ClicksAtMost(t, Clicks(h))
  {
    var r := [h] + t;
    assert forall i :: 0 < i < |r| ==> r[i] == t[i - 1];
    if SortedByClicks(t) && ClicksAtMost(t, Clicks(h)) {
      forall i, j | 0 <= i < j < |r| ensures Clicks(r[i]) >= Clicks(r[j]) {
        if i > 0 {
          assert Clicks(t[i - 1]) >= Clicks(t[j - 1]);
        }
      }
    }
    if SortedByClicks(r) {
      forall i, j | 0 <= i < j < |t| ensures Clicks(t[i]) >= Clicks(t[j]) {
        assert Clicks(r[i + 1]) >= Clicks(r[j + 1]);
      }
      forall i | 0 <= i < |t| ensures Clicks(t[i]) <= Clicks(h) {
        assert Clicks(r[0]) >= Clicks(r[i + 1]);
      }
    }
  }

  lemma {:induction false} InsertBounded(x: RankedStation, rs: seq<RankedStation>, c: int)
    requires ClicksAtMost(rs, c) && Clicks(x) <= c
    ensures ClicksAtMost(Insert(x, rs), c)
  {
    if rs != [] && Clicks(rs[0]) > Clicks(x) {
      var tail := rs[1..];
      assert forall i :: 0 <= i < |tail| ==> tail[i] == rs[i + 1];
      InsertBounded(x, tail, c);
      var r := [rs[0]] + Insert(x, tail);
      assert forall i :: 0 < i < |r| ==> r[i] == Insert(x, tail)[i - 1];
    } else if rs != [] {
      var r := [x] + rs;
      assert forall i :: 0 < i < |r| ==> r[i] == rs[i - 1];
    }
  }

  lemma {:induction false} InsertSorted(x: RankedStation, rs: seq<RankedStation>)
    requires SortedByClicks(rs)
    ensures SortedByClicks(Insert(x, rs))
  {
    if rs == [] {
    } else if Clicks(rs[0]) > Clicks(x) {
      var tail := rs[1..];
      assert rs == [rs[0]] + tail;
      SortedCons(rs[0], tail);
      InsertSorted(x, tail);
      InsertBounded(x, tail, Clicks(rs[0]));
      SortedCons(rs[0], Insert(x, tail));
    } else {
      var tail := rs[1..];
      assert rs == [rs[0]] + tail;
      SortedCons(rs[0], tail);
      assert ClicksAtMost(rs, Clicks(x)) by {
        assert forall i :: 0 < i < |rs| ==> rs[i] == tail[i - 1];
      }
      SortedCons(x, rs);
    }
  }

  /** Every entry `Insert` passes over has a higher click count than `x`, so the
      entries with any one count keep their order. */
  lemma {:induction false} InsertStable(x: RankedStation, rs: seq<RankedStation>, c: int)
    ensures WithClicks(Insert(x, rs), c) == WithClicks([x] + rs, c)
  {
    if rs != [] && Clicks(rs[0]) > Clicks(x) {
      var tail := rs[1..];
      InsertStable(x, tail, c);
      assert rs == [rs[0]] + tail;
      assert ([rs[0]] + Insert(x, tail))[1..] == Insert(x, tail);
      assert ([x] + rs)[1..] == rs;
      assert ([x] + tail)[1..] == tail;
    }
  }

  /** The sort orders by descending click count, is a permutation of its input, and
      keeps entries with equal counts in their input order (it is stable). */
  lemma {:induction false} SortByClicksProperties(rs: seq<RankedStation>)
    ensures SortedByClicks(SortByClicks(rs))
    ensures multiset(SortByClicks(rs)) == multiset(rs)
    ensures forall c :: WithClicks(SortByClicks(rs), c) == WithClicks(rs, c)
  {
    if rs != [] {
      var tail := rs[1..];
      SortByClicksProperties(tail);
      InsertSorted(rs[0], SortByClicks(tail));
      InsertMultiset(rs[0], SortByClicks(tail));
      assert rs == [rs[0]] + tail;
      forall c ensures WithClicks(SortByClicks(rs), c) == WithClicks(rs, c) {
        InsertStable(rs[0], SortByClicks(tail), c);
        assert ([rs[0]] + SortByClicks(tail))[1..] == SortByClicks(tail);
      }
    }
  }

  // ---------------------------------------------------------------------------
  // Properties of the ranking

  /** The in-radius candidates for the selected balloon, before sorting. */
  function Candidates(b: Balloon, stations: seq<Station>, dist: Distance): seq<RankedStation> {
    WithinRadius(WithDistance(b, stations, dist))
  }

  lemma {:induction false} WithClicksOfPrefix(rs: seq<RankedStation>, n: nat, c: int)
    requires n <= |rs|
    ensures WithClicks(rs[..n], c) <= WithClicks(rs, c)
  {
    if n > 0 {
      WithClicksOfPrefix(rs[1..], n - 1, c);
      assert rs[..n][1..] == rs[1..][..n - 1];
    }
  }

  /** The ranking is the sorted candidates, cut to ten. */
  lemma NearbyIsSortedPrefix(b: Balloon, stations: seq<Station>, dist: Distance)
    requires |stations| > 0
    ensures var sorted := SortByClicks(Candidates(b, stations, dist));
      Nearby(Some(b), stations, dist) == sorted[..if |sorted| <= MaxFilteredResults then |sorted| else MaxFilteredResults]
  {
  }

  /** Every ranked station has both coordinates, is one of the given stations, and
      lies within the search radius, at the distance computed for it. */
  lemma NearbyAreLocatedAndWithinRadius(selected: Option<Balloon>, stations: seq<Station>, dist: Distance)
    ensures forall r :: r in Nearby(selected, stations, dist) ==>
      && selected.Some?
      && r.station in stations && HasGeo(r.station)
      && r.distance == dist(selected.value.lat, selected.value.lng, r.station.geoLat.value, r.station.geoLong.value)
      && r.distance <= SearchRadiusKm
  {
    if selected.Some? && |stations| > 0 {
      var cands := Candidates(selected.value, stations, dist);
      var sorted := SortByClicks(cands);
      SortByClicksProperties(cands);
      NearbyIsSortedPrefix(selected.value, stations, dist);
      forall r | r in Nearby(selected, stations, dist) ensures r in cands {
        assert r in sorted;
        assert r in multiset(sorted);
      }
    }
  }

  /** At most ten stations, in descending click-count order, and stations with equal
      counts in the order the radius filter left them. */
  lemma NearbyOrder(selected: Option<Balloon>, stations: seq<Station>, dist: Distance)
    ensures |Nearby(selected, stations, dist)| <= MaxFilteredResults
    ensures SortedByClicks(Nearby(selected, stations, dist))
    ensures selected.Some? ==> forall c ::
      WithClicks(Nearby(selected, stations, dist), c) <= WithClicks(Candidates(selected.value, stations, dist), c)
  {
    if selected.Some? && |stations| > 0 {
      var cands := Candidates(selected.value, stations, dist);
      var sorted := SortByClicks(cands);
      SortByClicksProperties(cands);
      NearbyIsSortedPrefix(selected.value, stations, dist);
      var n := if |sorted| <= MaxFilteredResults then |sorted| else MaxFilteredResults;
      assert Nearby(selected, stations, dist) == sorted[..n];
      forall c ensures WithClicks(sorted[..n], c) <= WithClicks(cands, c) {
        WithClicksOfPrefix(sorted, n, c);
      }
    }
  }

  /** A candidate left out of the ranking means the ranking is full and every ranked
      station has at least the clicks of the one left out. */
  lemma NearbyOmitsOnlyLessClicked(b: Balloon, stations: seq<Station>, dist: Distance, x: RankedStation)
    requires x in Candidates(b, stations, dist)
    requires x !in Nearby(Some(b), stations, dist)
    ensures |Nearby(Some(b), stations, dist)| == MaxFilteredResults
    ensures forall r :: r in Nearby(Some(b), stations, dist) ==> Clicks(r) >= Clicks(x)
  {
    var cands := Candidates(b, stations, dist);
    var sorted := SortByClicks(cands);
    SortByClicksProperties(cands);
    assert |stations| > 0;
    NearbyIsSortedPrefix(b, stations, dist);
    assert x in multiset(sorted);
    CutOmitsOnlyLessClicked(sorted, x);
  }

  /** The cut to ten of a sorted sequence leaves out only entries with no more clicks
      than every entry it keeps. */
  lemma CutOmitsOnlyLessClicked(sorted: seq<RankedStation>, x: RankedStation)
    requires SortedByClicks(sorted) && x in sorted
    requires x !in sorted[..if |sorted| <= MaxFilteredResults then |sorted| else MaxFilteredResults]
    ensures |sorted| > MaxFilteredResults
    ensures forall r :: r in sorted[..MaxFilteredResults] ==> Clicks(r) >= Clicks(x)
  {
    var k :| 0 <= k < |sorted| && sorted[k] == x;
    var out := sorted[..MaxFilteredResults];
    forall r | r in out ensures Clicks(r) >= Clicks(x) {
      var i :| 0 <= i < |out| && out[i] == r;
      assert Clicks(sorted[i]) >= Clicks(sorted[k]);
    }
  }

  /** Stations without coordinates never reach the distance function: two distance
      functions that agree on the located stations give the same ranking. */
  lemma {:induction false} WithDistanceIgnoresUnlocated(b: Balloon, stations: seq<Station>, dist1: Distance, dist2: Distance)
    requires forall s :: s in stations && HasGeo(s) ==>
      dist1(b.lat, b.lng, s.geoLat.value, s.geoLong.value) == dist2(b.lat, b.lng, s.geoLat.value, s.geoLong.value)
    ensures WithDistance(b, stations, dist1) == WithDistance(b, stations, dist2)
  {
    if stations != [] {
      var prev := stations[..|stations| - 1];
      assert forall s :: s in prev ==> s in stations;
      WithDistanceIgnoresUnlocated(b, prev, dist1, dist2);
    }
  }

  lemma NearbyIgnoresUnlocated(selected: Option<Balloon>, stations: seq<Station>, dist1: Distance, dist2: Distance)
    requires selected.Some? ==> forall s :: s in stations && HasGeo(s) ==>
      dist1(selected.value.lat, selected.value.lng, s.geoLat.value, s.geoLong.value)
      == dist2(selected.value.lat, selected.value.lng, s.geoLat.value, s.geoLong.value)
    ensures Nearby(selected, stations, dist1) == Nearby(selected, stations, dist2)
  {
    if selected.Some? {
      WithDistanceIgnoresUnlocated(selected.value, stations, dist1, dist2);
    }
  }
}
