# Balloon radio map: a Dafny model of its data and playback core

The application plots Windborne weather balloons on a world map and plays the
internet radio stations near a selected balloon. This project models four parts
of it and proves properties about them:

- **CorsProxy** (`corsProxy.ts`): the address of an hourly snapshot. The hour is
  written in decimal and padded to two characters. The module proves that
  distinct hours give distinct addresses, and that the hour can be read back
  from the address. **Decimal** supplies the integer-to-text conversion and
  its inverse.
- **Windborne** (`fetchWindborne.ts`): decoding a snapshot payload into
  balloons. The payload is either an array of `[lat, lng, alt, ...]` tuples or
  an object of records. Missing radio frequencies and tags are generated at
  random. When the request fails, five fixed fallback balloons are used. JSON
  is a datatype. `Math.random()` is an oracle `rand: nat -> Draw` with an
  explicit draw counter. `Number(...)` and `toFixed(4)` are function
  parameters.
- **RadioStations** (`fetchRadioStations.ts`): merging the station lists of the
  five catalogue endpoints once every fetch has settled. Stations are
  deduplicated by uuid, keeping the first occurrence, and those without
  coordinates are dropped. The merge also counts successes and failures and
  picks the status message.
- **NearbyStations** and **FullMap** (`FullMap.tsx`):
  - The nearby ranking: located stations within 500 km, most clicked first,
    at most ten.
  - The component state as a class `FullMapState`. Its methods are the event
    handlers and effects: balloon selection, random hop, close card,
    play/pause, and the transport effect that drives the audio element and
    the single HLS (HTTP Live Streaming) transport handle.
  - The calls made on hls.js instances are recorded in a log field of the
    class (`hlsLog`, with the count `hlsCount` of instances created): the
    constructor, `attachMedia`, `loadSource`, `startLoad`, `recoverMediaError`
    and `destroy`. Registering the event listeners is implied by the
    constructor's entry. The
    class invariant ties that log to an ownership discipline:
    - at most one live instance;
    - calls go only to the live instance;
    - a stale instance is destroyed before the next one is created.

## Model

| member | source | states |
|---|---|---|
| Decimal.NatToDecimal | src/utils/corsProxy.ts:11 | `toString()` of a natural number is non-empty digits, one character exactly below 10, and has no leading zero |
| Decimal.IntToDecimal | src/utils/corsProxy.ts:11 | `toString()` of an integer starts with `-` exactly when it is negative |
| Decimal.NatToDecimalRoundTrip | src/utils/corsProxy.ts:11 | the digits written for n have value n |
| Decimal.IntToDecimalRoundTrip | src/utils/corsProxy.ts:11 | parsing the decimal text of any integer gives it back |
| Decimal.IntToDecimalInjective | src/utils/corsProxy.ts:11 | two integers have the same text iff they are equal |
| CorsProxy.PadStart | src/utils/corsProxy.ts:11 | `padStart`: a string already as wide is unchanged; otherwise the result has exactly the width, ends with the string and is pad characters before it |
| CorsProxy.HourSegment | src/utils/corsProxy.ts:11 | at least two characters; hours 0-99 give exactly two digits; longer texts are unpadded |
| CorsProxy.WindborneUrl | src/utils/corsProxy.ts:10-13 | the address is the base URL and `/`, then the hour segment, then `.json`; `WindborneUrlRoundTrip` and `WindborneUrlInjective` prove the hour is recoverable and distinct hours differ |
| CorsProxy.SingleDigitHourPadded | src/utils/corsProxy.ts:10-13 | hours 0-9 give `/api/windborne/0<d>.json` |
| CorsProxy.LongHourUnpadded | src/utils/corsProxy.ts:10-13 | hours of two or more characters (>= 10 or negative) are used unpadded |
| CorsProxy.DefaultHourIsZero | src/utils/corsProxy.ts:10 | the default argument yields `/api/windborne/00.json` |
| CorsProxy.HourSegmentRoundTrip | src/utils/corsProxy.ts:11 | the padded hour segment parses back to the hour |
| CorsProxy.WindborneUrlRoundTrip | src/utils/corsProxy.ts:5-13 | the hour can be recovered from the address |
| CorsProxy.WindborneUrlInjective | src/utils/corsProxy.ts:10-13 | two hours give the same address iff they are equal |
| RadioStations.FirstByUuid | src/utils/fetchRadioStations.ts:87-93 | deduplication never lengthens the list and always keeps the first station; its uniqueness and first-occurrence properties are the `FirstByUuid*` lemmas |
| RadioStations.Classify | src/utils/fetchRadioStations.ts:97-103 | success with the count iff some station is returned; "no location" iff none but some fetch succeeded; "failed" iff no fetch succeeded |
| RadioStations.Aggregated | src/utils/fetchRadioStations.ts:72-95 | never more stations than the array results hold, all with coordinates; the `Aggregated*` lemmas give uniqueness, firstness and order |
| RadioStations.GeoFilter | src/utils/fetchRadioStations.ts:95 | keeps exactly the stations having both coordinates (membership both ways), never more than given |
| RadioStations.MergeResults | src/utils/fetchRadioStations.ts:72-85 | the concatenation of the array results in endpoint order; successes count array results, failures count `null` results |
| RadioStations.BuildStationMap | src/utils/fetchRadioStations.ts:87-92 | the map holds, under each uuid in insertion order, the first station seen with it, and no other key |
| RadioStations.MapValues | src/utils/fetchRadioStations.ts:93 | `Array.from(map.values())`: the values in key-insertion order |
| RadioStations.FetchStationsDistributed | src/utils/fetchRadioStations.ts:70-105 | the returned stations are the aggregation of the settled results; the counts and the status are those of the results |
| RadioStations.FirstByUuidKeepsEveryUuidOnce | src/utils/fetchRadioStations.ts:87-93 | deduplication yields unique uuids, no new stations, and exactly the uuids of the input |
| RadioStations.FirstByUuidKeepsFirstOccurrence | src/utils/fetchRadioStations.ts:87-93 | each kept station is the first with its uuid, and they come in the order of those first occurrences |
| RadioStations.GeoFilterKeepsUniqueUuids | src/utils/fetchRadioStations.ts:95 | the coordinate filter keeps uuids unique |
| RadioStations.GeoFilterKeepsOrder | src/utils/fetchRadioStations.ts:95 | the coordinate filter keeps first-occurrence order |
| RadioStations.AggregatedUuidsUnique | src/utils/fetchRadioStations.ts:72-95 | no uuid is returned twice |
| RadioStations.AggregatedBounds | src/utils/fetchRadioStations.ts:76-95 | every returned station has coordinates and came from an array result; never more than were fetched |
| RadioStations.AggregatedAreFirstOccurrences | src/utils/fetchRadioStations.ts:87-95 | every returned station is the first fetched station with its uuid |
| RadioStations.AggregatedInFirstOccurrenceOrder | src/utils/fetchRadioStations.ts:87-95 | returned stations are in the order their uuids first appeared |
| RadioStations.AggregatedUuidIff | src/utils/fetchRadioStations.ts:76-95 | a uuid is returned iff its first fetched station has both coordinates |
| RadioStations.NoSuccessMeansNoStations | src/utils/fetchRadioStations.ts:76-105 | with no array result nothing is returned |
| RadioStations.StatusMeaning | src/utils/fetchRadioStations.ts:97-103 | success message iff stations were returned; "no location" iff some fetch succeeded but none located; "failed" iff no fetch succeeded |
| RadioStations.FetchCounts | src/utils/fetchRadioStations.ts:76-85 | successes plus failures never exceed the endpoints, equal them iff no result was a non-array value, and all-failed means failures equal the endpoints |
| Windborne.IndicesWhere | src/utils/fetchWindborne.ts:30-31 | the positions satisfying a guard: valid, increasing, and every satisfying position appears |
| Windborne.ScaledIndex | src/utils/fetchWindborne.ts:92-96 | `Math.floor(Math.random() * n)` is an index below n |
| Windborne.TagsJson | src/utils/fetchWindborne.ts:48 | the tag list as a JSON string array, element by element; valid tags give a generated-tag value |
| Windborne.GenerateRandomTags | src/utils/fetchWindborne.ts:90-104 | one to three distinct tags, all from the fixed list of fourteen; at least one draw is consumed |
| Windborne.RandomFrequency | src/utils/fetchWindborne.ts:46 | a generated frequency lies in [88.1, 107.9) |
| Windborne.ExtractFromTuples | src/utils/fetchWindborne.ts:28-54 | one balloon per tuple of length >= 3, in order: lat/lng/alt by `Number`, id from the two coordinates at four decimals, callsign from the tuple's position, generated frequency and tags |
| Windborne.ShortTupleSkipped | src/utils/fetchWindborne.ts:30-44 | a two-element tuple is skipped, and the following tuple's callsign is `Balloon-1` (its position in the payload) |
| Windborne.DecodeRecord | src/utils/fetchWindborne.ts:65-74 | the balloon of one kept record: id from the key, typed fields copied, callsign defaulting to `Balloon-<key>`, frequency and tags kept when truthy and generated otherwise |
| Windborne.ExtractFromRecords | src/utils/fetchWindborne.ts:56-79 | one balloon per object record with numeric lat and lng, in entry order: id from the key, alt/time only when typed, callsign defaulting to `Balloon-<key>`, frequency and tags kept when truthy and generated otherwise |
| Windborne.ExtractBalloonData | src/utils/fetchWindborne.ts:19-85 | a falsy or scalar payload gives no balloons; arrays decode as tuples, objects as records |
| Windborne.FallbackData | src/utils/fetchWindborne.ts:129-177 | the five fixed fallback balloons |
| Windborne.FetchBalloonData | src/utils/fetchWindborne.ts:109-176 | the fallback is used iff the request fails, the status is not ok or the body is not JSON; the fallback is the five fixed balloons; otherwise the decoded snapshot of the requested hour's address |
| NearbyStations.WithDistance | src/components/FullMap.tsx:191-204 | one entry per located station, in station order (entry j is the j-th station with both coordinates, with its distance from the balloon); no unlocated station appears |
| NearbyStations.WithinRadius | src/components/FullMap.tsx:220-221 | entry j is the j-th entry at most 500 km away, so order and multiplicity are kept; membership iff within the radius |
| NearbyStations.Insert | src/components/FullMap.tsx:222 | inserting lengthens the sequence by one |
| NearbyStations.SortByClicks | src/components/FullMap.tsx:222 | the sort keeps the length; that it is a stable descending permutation is `SortByClicksProperties` |
| NearbyStations.Nearby | src/components/FullMap.tsx:187-231 | no selected balloon or no stations gives an empty ranking |
| NearbyStations.InsertMultiset | src/components/FullMap.tsx:222 | inserting adds exactly the one element |
| NearbyStations.InsertSorted | src/components/FullMap.tsx:222 | inserting keeps descending click order |
| NearbyStations.InsertStable | src/components/FullMap.tsx:222 | inserting does not reorder entries of equal click count |
| NearbyStations.SortByClicksProperties | src/components/FullMap.tsx:222 | the sort is a permutation, descending by clicks, and stable (entries with the same count keep their order) |
| NearbyStations.NearbyAreLocatedAndWithinRadius | src/components/FullMap.tsx:188-221 | every ranked station is a given located station at its computed distance, within 500 km |
| NearbyStations.NearbyOrder | src/components/FullMap.tsx:220-223 | at most ten, descending by clicks, equal counts in candidate order |
| NearbyStations.NearbyOmitsOnlyLessClicked | src/components/FullMap.tsx:220-223 | a candidate is left out only when ten stations with at least its clicks were ranked |
| NearbyStations.WithDistanceIgnoresUnlocated | src/components/FullMap.tsx:193-201 | the distance function is never applied to stations without coordinates |
| NearbyStations.NearbyIgnoresUnlocated | src/components/FullMap.tsx:187-231 | distance functions agreeing on located stations give the same ranking |
| FullMap.LiveUntilDestroyed | src/components/FullMap.tsx:266-278 | under the ownership discipline a live instance is destroyed before any later creation |
| FullMap.DestroyBetweenCreates | src/components/FullMap.tsx:261-278 | between any two creations in the log lies the destruction of the first instance |
| FullMap.PlayUrl | src/components/FullMap.tsx:115 | `url_resolved || url`: one of the two, empty exactly when both are |
| FullMap.FindStation | src/components/FullMap.tsx:259 | the station found is the first whose play URL is the given one; none found means no station has it |
| FullMap.FirstPlayable | src/components/FullMap.tsx:236 | the station picked is the first ranked one with a play URL; none means no ranked station has one |
| FullMap.FullMapState.constructor | src/components/FullMap.tsx:21-35 | initial state: nothing loaded, selected or playing, no instance created |
| FullMap.FullMapState.MountAudio | src/components/FullMap.tsx:365 | the audio element is attached, empty and paused; nothing else changes |
| FullMap.FullMapState.StopPlayback | src/components/FullMap.tsx:98-112 | not playing, no URL, audio emptied and paused, the live instance (if any) destroyed; the invariant is kept, and stopping twice changes nothing |
| FullMap.FullMapState.ReleaseHandle | src/components/FullMap.tsx:266-271 | destroys the live instance, if any, and clears the reference |
| FullMap.FullMapState.CreateHandle | src/components/FullMap.tsx:275-302 | with no live instance, creates the next one for the playing URL and attaches the audio element |
| FullMap.FullMapState.HandlePlayPause | src/components/FullMap.tsx:114-136 | no URL: nothing changes; same URL playing: stop; otherwise stop any other stream and start this URL |
| FullMap.FullMapState.TransportEffect | src/components/FullMap.tsx:252-361 | no audio: nothing; not playing: audio paused; HLS stream: reuse the instance loaded with this URL or destroy the stale one and create a new one; HLS unsupported: stop; direct stream: no instance, audio src set and playing |
| FullMap.FullMapState.OnHlsError | src/components/FullMap.tsx:280-299 | a fatal network error restarts loading, a fatal media error recovers, any other fatal error stops; non-fatal errors and stale instances change nothing |
| FullMap.FullMapState.OnMediaAttached | src/components/FullMap.tsx:303-306 | the live instance loads the stream it was created for |
| FullMap.FullMapState.OnManifestParsed | src/components/FullMap.tsx:307-314 | the audio element of the live instance starts playing |
| FullMap.FullMapState.OnPlayRejected | src/components/FullMap.tsx:344-349 | a rejected `play()` stops playback; the audio element stays mounted or unmounted, and an unmounted one is untouched |
| FullMap.FullMapState.HandleBalloonClick | src/components/FullMap.tsx:85-96 | clicking the selected balloon (same id) deselects, any other selects it; the hop ends; playback untouched |
| FullMap.FullMapState.HandleCloseCard | src/components/FullMap.tsx:138-142 | no selection, no hop, playback stopped; the lists, the pending auto-play and an unmounted audio element are untouched |
| FullMap.FullMapState.HandleRandomHop | src/components/FullMap.tsx:144-158 | no balloons: nothing changes; otherwise playback stops and the balloon at `floor(r * n)` is selected with the hop active; the lists, the pending auto-play and an unmounted audio element are untouched |
| FullMap.FullMapState.LoadBalloonData | src/components/FullMap.tsx:44-62 | selection cleared, balloons replaced |
| FullMap.FullMapState.LoadAllRadioStations | src/components/FullMap.tsx:64-77 | the station list is replaced |
| FullMap.FullMapState.UpdateFilteredStations | src/components/FullMap.tsx:187-231 | the displayed stations are the nearby ranking of the selected balloon |
| FullMap.FullMapState.AutoPlayEffect | src/components/FullMap.tsx:233-250 | the previous run's cleanup cancels a pending auto-play; during a hop with ranked stations the first one with a URL is scheduled and the hop ends |
| FullMap.FullMapState.FirePendingPlay | src/components/FullMap.tsx:239-241 | the timer hands the scheduled station to `handlePlayPause`: it starts playing (with no live instance) unless it was the one playing, which stops; the previous instance is destroyed, the audio element is emptied only if something was playing, and nothing else changes; no timer, no change |
| FullMap.FullMapState.AutoPlayEffectKeepingTimer | src/components/FullMap.tsx:233-250 | the effect without the cancelling cleanup: a scheduled auto-play survives the end of the hop |
| FullMap.AutoPlayAfterHopAsWritten | src/components/FullMap.tsx:144-250 | a hop onto a balloon with a playable nearby station schedules it, yet nothing plays |
| FullMap.AutoPlayAfterHopCorrected | src/components/FullMap.tsx:144-250 | with the timer kept, the same hop plays the first playable nearby station |
| FullMap.SwitchHlsStations | src/components/FullMap.tsx:114-314 | playing one HLS station then another makes the calls create, attach, load, destroy, create, attach, in that order |

## Left out

- Network I/O (catalogue fetches, the snapshot fetch, the click-logging POST) is left out. Each fetch is replaced by its settled outcome: `EndpointResult` for the catalogue, the `server` function for the snapshot. `Promise.all` concurrency is not modelled.
- The five catalogue endpoint URLs and the User-Agent header are constants of the I/O and are not modelled. `FetchStationsDistributed` accepts any number of settled results.
- Toast messages, map `flyTo`/zoom options, `StationCard` and `BalloonMarker` rendering, loading spinners and the hour selector are user-interface output and are left out. The status message is summarised by `LoadStatus`.
- The debug-radius block (`FullMap.tsx` 206-218) computes a list it never uses and is left out.
- NearbyStations.WithDistance: the haversine formula is a parameter `dist`; floating-point rounding and NaN are not modelled (reals are exact).
- Windborne.ExtractFromTuples: `Number(...)` and `toFixed(4)` are parameters; `toNumber` returns a real, so the NaN that `Number` gives for a non-numeric entry (such as `{}`) is not modelled, and the model states only that generated frequencies and tags are in range, not which draws produced them.
- Windborne.ExtractFromRecords: the order of the entries stands for `Object.entries` order; JavaScript's integer-key-first ordering is not modelled.
- Windborne.ExtractBalloonData: the `try`/`catch` returning `[]` cannot fire on decoded JSON values and has no counterpart.
- Windborne.GenerateRandomTags and Windborne.RandomFrequency: the upper bound 107.9 is stated in exact reals; the IEEE rounding of `88.1 + r * 19.8` is not modelled.
- CorsProxy.WindborneUrl: only integral hours are modelled; `toString` of fractional numbers is not.
- Decimal.IntToDecimal: JavaScript's `toString` switches to exponent form from 1e21 and is inexact above 2^53; the model writes every integer in plain decimal. Callers pass hours 0-23, far below both bounds.
- Windborne.Json: objects with repeated keys are not modelled faithfully. `JSON.parse` keeps one entry per key, and `Lookup` looks from the end, which agrees with `JSON.parse` for property reads. `ExtractFromRecords` would decode every entry of such an object, where `Object.entries` lists each key once.
- Windborne.FallbackData: the contract states only that there are five balloons. The field values are the literals of the fallback list.
- FullMap.FullMapState: React's batched state updates, re-render scheduling and stale closures are not modelled. Each handler applies its updates at once, and each effect is a method the caller runs after the change it depends on. The 100 ms timer of the auto-play effect is the field `pendingPlay`: `AutoPlayEffect` sets or clears it and `FirePendingPlay` fires it. The model does not capture the order in which React runs effects within one commit: `AutoPlayEffect` reads the ranking that `UpdateFilteredStations` has just set.
- FullMap.FullMapState.TransportEffect: `audio.src !== playingUrl` compares the literal string, not the browser's resolved absolute URL. The branch at `FullMap.tsx` 316-318 (load a new source into an instance whose URL differs) can never run, because such an instance was destroyed just before. The model marks it unreachable.
- FullMap.FullMapState.OnHlsError: hls.js internals (what `startLoad` and `recoverMediaError` do inside the library) are out of scope; only the calls are logged.

## Findings

| source | as written | input that shows it | evidently intended | confidence | as-written member | corrected member |
|---|---|---|---|---|---|---|
| src/components/FullMap.tsx:233-250 | the auto-play effect schedules `handlePlayPause` in 100 ms, sets `isRandomHopActive` to false and returns `clearTimeout(timer)`; the flag is a dependency, so the re-run this causes first runs that cleanup and cancels the timer | a random hop onto a balloon with a playable station within 500 km | after a hop, the first playable nearby station starts playing | not executed | FullMap.AutoPlayAfterHopAsWritten | FullMap.AutoPlayAfterHopCorrected |
