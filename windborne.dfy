/** Decoding of the hourly Windborne balloon snapshot (`fetchWindborne.ts`). */
module Windborne {

  import opened Wrappers
  import opened Decimal
  import CorsProxy

  /** A decoded JSON value. An object is the list of its entries in the order
      `Object.entries` enumerates them; the keys of an object from `JSON.parse` are
      distinct, so a key names at most one entry. */
  datatype Json =
    | JNull
    | JBool(b: bool)
    | JNum(n: real)
    | JStr(s: string)
    | JArr(items: seq<Json>)
    | JObj(entries: seq<(string, Json)>)

  /** A draw of `Math.random()`. */
  type Draw = r: real | 0.0 <= r < 1.0

  /** A balloon as the map shows it. `frequency` and `tags` hold whatever the
      upstream record supplied when that was truthy, untyped as in the source. */
  datatype Balloon = Balloon(
    id: string,
    lat: real,
    lng: real,
    alt: Option<real>,
    time: Option<string>,
    callsign: Option<string>,
    frequency: Option<Json>,
    tags: Option<Json>)

  /** JavaScript truthiness. */
  predicate Truthy(v: Json) {
    match v
    case JNull => false
    case JBool(b) => b
    case JNum(n) => n != 0.0
    case JStr(s) => s != ""
    case JArr(_) => true
    case JObj(_) => true
  }

  /** A property read that yields a truthy value (`undefined` is falsy). */
  predicate Present(v: Option<Json>) {
    v.Some? && Truthy(v.value)
  }

  function Lookup(entries: seq<(string, Json)>, key: string): Option<Json> {
    if entries == [] then None
    else if entries[|entries| - 1].0 == key then Some(entries[|entries| - 1].1)
    else Lookup(entries[..|entries| - 1], key)
  }

  /** `value[key]` on a decoded JSON value: the entry with that key for an object
      (searched from the end, which for repeated keys would be the one `JSON.parse`
      keeps), `undefined` for anything else. */
  function Property(v: Json, key: string): Option<Json> {
    if v.JObj? then Lookup(v.entries, key) else None
  }

  /** The property when `typeof` it is "number". */
  function NumberProperty(v: Json, key: string): Option<real> {
    match Property(v, key)
    case Some(JNum(n)) => Some(n)
    case _ => None
  }

  /** The property when `typeof` it is "string". */
  function StringProperty(v: Json, key: string): Option<string> {
    match Property(v, key)
    case Some(JStr(s)) => Some(s)
    case _ => None
  }

  /** The positions of `s` whose element satisfies `p`, in increasing order. */
  function IndicesWhere<T>(s: seq<T>, p: T -> bool): (r: seq<nat>)
    ensures |r| <= |s|
    ensures forall j :: 0 <= j < |r| ==> r[j] < |s| && p(s[r[j]])
    ensures forall i, j :: 0 <= i < j < |r| ==> r[i] < r[j]
    ensures forall i :: 0 <= i < |s| && p(s[i]) ==> i in r
  {
    if s == [] then []
    else
      var prev := IndicesWhere(s[..|s| - 1], p);
      assert forall i :: 0 <= i < |s| - 1 ==> s[..|s| - 1][i] == s[i];
      prev + (if p(s[|s| - 1]) then [|s| - 1] else [])
  }

  // ---------------------------------------------------------------------------
  // Random defaults

  const AllTags: seq<string> := ["Pop", "Rock", "Classical", "Jazz", "News", "Talk", "Electronic",
                                 "Country", "Hip-Hop", "R&B", "Soul", "Blues", "Reggae", "World"]

  const MinFrequency: real := 88.1
  const FrequencySpan: real := 19.8

  /** Distinct tags from the fixed list, one to three of them. */
  predicate ValidTags(tags: seq<string>) {
    && 1 <= |tags| <= 3
    && (forall i :: 0 <= i < |tags| ==> tags[i] in AllTags)
    && (forall i, j :: 0 <= i < j < |tags| ==> tags[i] != tags[j])
  }

  function TagsJson(tags: seq<string>): (v: Json)
    ensures v.JArr? && |v.items| == |tags|
    ensures forall i :: 0 <= i < |tags| ==> v.items[i] == JStr(tags[i])
    ensures ValidTags(tags) ==> GeneratedTags(v)
  {
    JArr(seq(|tags|, i requires 0 <= i < |tags| => JStr(tags[i])))
  }

  /** A generated frequency: within [88.1, 107.9). */
  predicate GeneratedFrequency(v: Json) {
    v.JNum? && MinFrequency <= v.n < MinFrequency + FrequencySpan
  }

  /** A generated tag list, as JSON. */
  predicate GeneratedTags(v: Json) {
    && v.JArr?
    && 1 <= |v.items| <= 3
    && (forall i :: 0 <= i < |v.items| ==> v.items[i].JStr? && v.items[i].s in AllTags)
    && (forall i, j :: 0 <= i < j < |v.items| ==> v.items[i] != v.items[j])
  }

  /** `floor(r * n)` for a draw `r`: an index below `n`. */
  function ScaledIndex(r: Draw, n: nat): (i: nat)
    requires n > 0
    ensures i < n
  {
    var x := r * n as real;
    assert 0.0 <= x < n as real;
    x.Floor
  }

  /** `generateRandomTags`: draws how many tags to pick, then picks that many
      positions, skipping a tag already chosen. `rand(k)` is the k-th draw. */
  method GenerateRandomTags(rand: nat -> Draw, k0: nat) returns (tags: seq<string>, k: nat)
    ensures ValidTags(tags)
    ensures k0 < k
  {
    var count := 1 + ScaledIndex(rand(k0), 3);
    k := k0 + 1;
    tags := [];
    var i := 0;
    while i < count
      invariant 0 <= i <= count <= 3
      invariant k0 < k
      invariant |tags| <= i && (i > 0 ==> 1 <= |tags|)
      invariant forall a :: 0 <= a < |tags| ==> tags[a] in AllTags
      invariant forall a, b :: 0 <= a < b < |tags| ==> tags[a] != tags[b]
    {
      var randomIndex := ScaledIndex(rand(k), |AllTags|);
      k := k + 1;
      var tag := AllTags[randomIndex];
      if tag !in tags {
        tags := tags + [tag];
      }
      i := i + 1;
    }
  }

  /** `88.1 + Math.random() * 19.8`. */
  function RandomFrequency(r: Draw): (v: Json)
    ensures GeneratedFrequency(v)
  {
    JNum(MinFrequency + r * FrequencySpan)
  }

  // ---------------------------------------------------------------------------
  // Array format: a list of tuples [lat, lng, alt, ...]

  predicate IsTuple(item: Json) {
    item.JArr? && |item.items| >= 3
  }

  /** `b` is what the decoder builds from the tuple `item` found at position `index`.
      `toNumber` is JavaScript's `Number(...)` and `fixed4` is `toFixed(4)`. */
  ghost predicate DecodedTuple(b: Balloon, item: Json, index: nat, toNumber: Json -> real, fixed4: real -> string) {
    && IsTuple(item)
    && b.lat == toNumber(item.items[0])
    && b.lng == toNumber(item.items[1])
    && b.alt == Some(toNumber(item.items[2]))
    && b.id == "balloon_" + fixed4(b.lat) + "_" + fixed4(b.lng)
    && b.callsign == Some("Balloon-" + NatToDecimal(index))
    && b.time == None
    && b.frequency.Some? && GeneratedFrequency(b.frequency.value)
    && b.tags.Some? && GeneratedTags(b.tags.value)
  }

  ghost predicate DecodedTuples(items: seq<Json>, balloons: seq<Balloon>, toNumber: Json -> real, fixed4: real -> string) {
    var kept := IndicesWhere(items, IsTuple);
    && |balloons| == |kept|
    && forall j :: 0 <= j < |balloons| ==>
         DecodedTuple(balloons[j], items[kept[j]], kept[j], toNumber, fixed4)
  }

  lemma IndicesWhereAppend<T>(s: seq<T>, x: T, p: T -> bool)
    ensures IndicesWhere(s + [x], p) == IndicesWhere(s, p) + (if p(x) then [|s|] else [])
  {
    assert (s + [x])[..|s|] == s;
  }

  lemma DecodedTuplesStep(s: seq<Json>, x: Json, balloons: seq<Balloon>, b: Balloon,
                          toNumber: Json -> real, fixed4: real -> string)
    requires DecodedTuples(s, balloons, toNumber, fixed4)
    requires IsTuple(x) ==> DecodedTuple(b, x, |s|, toNumber, fixed4)
    ensures DecodedTuples(s + [x], if IsTuple(x) then balloons + [b] else balloons, toNumber, fixed4)
  {
    IndicesWhereAppend(s, x, IsTuple);
    var kept, kept' := IndicesWhere(s, IsTuple), IndicesWhere(s + [x], IsTuple);
    var balloons' := if IsTuple(x) then balloons + [b] else balloons;
    forall j | 0 <= j < |balloons'|
      ensures DecodedTuple(balloons'[j], (s + [x])[kept'[j]], kept'[j], toNumber, fixed4)
    {
      if j < |balloons| {
        assert kept'[j] == kept[j] && balloons'[j] == balloons[j];
        assert (s + [x])[kept[j]] == s[kept[j]];
      }
    }
  }

  /** The array branch of `extractBalloonData`. */
  method ExtractFromTuples(items: seq<Json>, toNumber: Json -> real, fixed4: real -> string, rand: nat -> Draw, k0: nat)
    returns (balloons: seq<Balloon>, k: nat)
    ensures DecodedTuples(items, balloons, toNumber, fixed4)
    ensures k0 <= k
  {
    balloons, k := [], k0;
    var index := 0;
    while index < |items|
      invariant 0 <= index <= |items|
      invariant k0 <= k
      invariant DecodedTuples(items[..index], balloons, toNumber, fixed4)
    {
      assert items[..index + 1] == items[..index] + [items[index]];
      var item := items[index];
      ghost var before := balloons;
      if item.JArr? && |item.items| >= 3 {
        var lat := toNumber(item.items[0]);
        var lng := toNumber(item.items[1]);
        var alt := if |item.items| > 2 then Some(toNumber(item.items[2])) else None;
        var stableId := "balloon_" + fixed4(lat) + "_" + fixed4(lng);
        var frequency := RandomFrequency(rand(k));
        var tags;
        tags, k := GenerateRandomTags(rand, k + 1);
        var balloon := Balloon(stableId, lat, lng, alt, None,
                               Some("Balloon-" + NatToDecimal(index)), Some(frequency), Some(TagsJson(tags)));
        assert GeneratedTags(TagsJson(tags));
        assert DecodedTuple(balloon, item, index, toNumber, fixed4);
        DecodedTuplesStep(items[..index], item, balloons, balloon, toNumber, fixed4);
        balloons := balloons + [balloon];
      } else {
        DecodedTuplesStep(items[..index], item, balloons, Balloon("", 0.0, 0.0, None, None, None, None, None), toNumber, fixed4);
      }
      index := index + 1;
    }
    assert items[..index] == items;
  }

  /** A short tuple is skipped, and the callsign of a kept tuple numbers its
      position in the payload, not its position among the kept ones. */
  lemma ShortTupleSkipped(x: Json, y: Json, z: Json, balloons: seq<Balloon>,
                          toNumber: Json -> real, fixed4: real -> string)
    requires DecodedTuples([JArr([x, y]), JArr([x, y, z])], balloons, toNumber, fixed4)
    ensures |balloons| == 1
    ensures balloons[0].callsign == Some("Balloon-1")
    ensures balloons[0].alt == Some(toNumber(z))
  {
    OnlySecondIsTuple(x, y, z);
    assert DecodedTuple(balloons[0], JArr([x, y, z]), 1, toNumber, fixed4);
    CallsignOfOne();
  }

  lemma OnlySecondIsTuple(x: Json, y: Json, z: Json)
    ensures IndicesWhere([JArr([x, y]), JArr([x, y, z])], IsTuple) == [1]
  {
    var short, long := JArr([x, y]), JArr([x, y, z]);
    IndicesWhereAppend([], short, IsTuple);
    IndicesWhereAppend([short], long, IsTuple);
    assert [short] + [long] == [short, long];
  }

  lemma CallsignOfOne()
    ensures "Balloon-" + NatToDecimal(1) == "Balloon-1"
  {
    assert DigitChar(1) == '1';
  }

  // ---------------------------------------------------------------------------
  // Object format: a map from balloon key to record

  /** A record the decoder keeps: an object whose `lat` and `lng` are numbers. */
  predicate IsRecord(entry: (string, Json)) {
    entry.1.JObj? && NumberProperty(entry.1, "lat").Some? && NumberProperty(entry.1, "lng").Some?
  }

  /** `b` is what the decoder builds from the entry `key: value`. */
  ghost predicate DecodedRecord(b: Balloon, key: string, value: Json) {
    && IsRecord((key, value))
    && b.id == key
    && b.lat == NumberProperty(value, "lat").value
    && b.lng == NumberProperty(value, "lng").value
    && b.alt == NumberProperty(value, "alt")
    && b.time == StringProperty(value, "time")
    && b.callsign == Some(StringProperty(value, "callsign").GetOr("Balloon-" + key))
    && b.frequency.Some?
    && (if Present(Property(value, "frequency")) then b.frequency == Property(value, "frequency")
        else GeneratedFrequency(b.frequency.value))
    && b.tags.Some?
    && (if Present(Property(value, "tags")) then b.tags == Property(value, "tags")
        else GeneratedTags(b.tags.value))
  }

  ghost predicate DecodedRecords(entries: seq<(string, Json)>, balloons: seq<Balloon>) {
    var kept := IndicesWhere(entries, IsRecord);
    && |balloons| == |kept|
    && forall j :: 0 <= j < |balloons| ==>
         DecodedRecord(balloons[j], entries[kept[j]].0, entries[kept[j]].1)
  }

  lemma DecodedRecordsStep(s: seq<(string, Json)>, x: (string, Json), balloons: seq<Balloon>, b: Balloon)
    requires DecodedRecords(s, balloons)
    requires IsRecord(x) ==> DecodedRecord(b, x.0, x.1)
    ensures DecodedRecords(s + [x], if IsRecord(x) then balloons + [b] else balloons)
  {
    IndicesWhereAppend(s, x, IsRecord);
    var kept, kept' := IndicesWhere(s, IsRecord), IndicesWhere(s + [x], IsRecord);
    var balloons' := if IsRecord(x) then balloons + [b] else balloons;
    forall j | 0 <= j < |balloons'|
      ensures DecodedRecord(balloons'[j], (s + [x])[kept'[j]].0, (s + [x])[kept'[j]].1)
    {
      if j < |balloons| {
        assert kept'[j] == kept[j] && balloons'[j] == balloons[j];
        assert (s + [x])[kept[j]] == s[kept[j]];
      }
    }
  }

  /** The balloon built from a record the decoder keeps; a default is drawn only
      for a frequency or tag list the record lacks. */
  method DecodeRecord(key: string, value: Json, rand: nat -> Draw, k0: nat) returns (balloon: Balloon, k: nat)
    requires IsRecord((key, value))
    ensures DecodedRecord(balloon, key, value)
    ensures k0 <= k
  {
    k := k0;
    var frequency := Property(value, "frequency");
    if !Present(frequency) {
      frequency := Some(RandomFrequency(rand(k)));
      k := k + 1;
    }
    var tags := Property(value, "tags");
    if !Present(tags) {
      var generated;
      generated, k := GenerateRandomTags(rand, k);
      tags := Some(TagsJson(generated));
    }
    balloon := Balloon(key, NumberProperty(value, "lat").value, NumberProperty(value, "lng").value,
                       NumberProperty(value, "alt"), StringProperty(value, "time"),
                       Some(StringProperty(value, "callsign").GetOr("Balloon-" + key)),
                       frequency, tags);
  }

  /** The object branch of `extractBalloonData`. */
  method ExtractFromRecords(entries: seq<(string, Json)>, rand: nat -> Draw, k0: nat)
    returns (balloons: seq<Balloon>, k: nat)
    ensures DecodedRecords(entries, balloons)
    ensures k0 <= k
  {
    balloons, k := [], k0;
    var i := 0;
    while i < |entries|
      invariant 0 <= i <= |entries|
      invariant k0 <= k
      invariant DecodedRecords(entries[..i], balloons)
    {
      assert entries[..i + 1] == entries[..i] + [entries[i]];
      var (key, value) := entries[i];
      if value.JObj? && NumberProperty(value, "lat").Some? && NumberProperty(value, "lng").Some? {
        var balloon;
        balloon, k := DecodeRecord(key, value, rand, k);
        DecodedRecordsStep(entries[..i], entries[i], balloons, balloon);
        balloons := balloons + [balloon];
      } else {
        DecodedRecordsStep(entries[..i], entries[i], balloons, Balloon("", 0.0, 0.0, None, None, None, None, None));
      }
      i := i + 1;
    }
    assert entries[..i] == entries;
  }

  // ---------------------------------------------------------------------------
  // The whole payload

  /** What the decoder produces for `data`: nothing for a falsy or scalar payload. */
  ghost predicate Decoded(data: Json, balloons: seq<Balloon>, toNumber: Json -> real, fixed4: real -> string) {
    match data
    case JArr(items) => DecodedTuples(items, balloons, toNumber, fixed4)
    case JObj(entries) => DecodedRecords(entries, balloons)
    case _ => balloons == []
  }

  /** `extractBalloonData`. */
  method ExtractBalloonData(data: Json, toNumber: Json -> real, fixed4: real -> string, rand: nat -> Draw, k0: nat)
    returns (balloons: seq<Balloon>, k: nat)
    ensures Decoded(data, balloons, toNumber, fixed4)
    ensures !Truthy(data) ==> balloons == []
    ensures k0 <= k
  {
    if !Truthy(data) {
      return [], k0;
    }
    match data {
      case JArr(items) =>
        balloons, k := ExtractFromTuples(items, toNumber, fixed4, rand, k0);
      case JObj(entries) =>
        balloons, k := ExtractFromRecords(entries, rand, k0);
      case _ =>
        balloons, k := [], k0;
    }
  }

  // ---------------------------------------------------------------------------
  // Fetching with the fallback

  /** How the snapshot request settled. `body` is `None` when the body is not JSON
      (so `response.json()` rejects). */
  datatype HttpResponse = NetworkError | Response(ok: bool, body: Option<Json>)

  /** The five fixed records shown when the snapshot cannot be had. */
  function FallbackData(): (r: seq<Balloon>)
    ensures |r| == 5
  {
    [
      Balloon("fallback-1", 40.7128, -74.006, Some(9000.0), None, Some("NYC-Balloon"), Some(JNum(91.3)),
              Some(TagsJson(["Jazz", "News"]))),
      Balloon("fallback-2", 51.5074, -0.1278, Some(8500.0), None, Some("London-FM"), Some(JNum(103.5)),
              Some(TagsJson(["Pop", "Talk"]))),
      Balloon("fallback-3", 35.6762, 139.6503, Some(7800.0), None, Some("Tokyo-Radio"), Some(JNum(98.7)),
              Some(TagsJson(["Electronic", "World"]))),
      Balloon("fallback-4", -33.8688, 151.2093, Some(8200.0), None, Some("Sydney-Air"), Some(JNum(88.9)),
              Some(TagsJson(["Rock", "Classical"]))),
      Balloon("fallback-5", 37.7749, -122.4194, Some(9200.0), None, Some("SF-Waves"), Some(JNum(105.7)),
              Some(TagsJson(["Hip-Hop", "Soul"])))
    ]
  }

  /** `fetchBalloonData(hour)`: the snapshot of that hour decoded, or the fallback
      records when the request fails, the status is not ok or the body is not JSON.
      `server` answers the request for a URL. */
  method FetchBalloonData(hour: int, server: string -> HttpResponse, toNumber: Json -> real,
                          fixed4: real -> string, rand: nat -> Draw, k0: nat)
    returns (balloons: seq<Balloon>, usedFallback: bool, k: nat)
    ensures var reply := server(CorsProxy.WindborneUrl(hour));
      usedFallback <==> !(reply.Response? && reply.ok && reply.body.Some?)
    ensures usedFallback ==> balloons == FallbackData()
    ensures !usedFallback ==> Decoded(server(CorsProxy.WindborneUrl(hour)).body.value, balloons, toNumber, fixed4)
    ensures k0 <= k
  {
    var url := CorsProxy.WindborneUrl(hour);
    var response := server(url);
    if response.Response? && response.ok && response.body.Some? {
      balloons, k := ExtractBalloonData(response.body.value, toNumber, fixed4, rand, k0);
      usedFallback := false;
    } else {
      balloons, usedFallback, k := FallbackData(), true, k0;
    }
  }
}
