/** The state of the `FullMap` component that its handlers and effects update:
    balloon selection, the random hop, and the playback controller with its single
    HLS transport handle. */
module FullMap {

  import opened Wrappers
  import opened RadioStations
  import opened NearbyStations
  import Windborne

  // ---------------------------------------------------------------------------
  // The HLS handle and the ownership discipline

  /** `Hls.ErrorTypes`: the kinds of fatal transport error the handler tells apart. */
  datatype HlsErrorType = NetworkErrorType | MediaErrorType | OtherErrorType

  /** An hls.js instance, as an opaque token. `source` is the stream its event
      listeners were registered for; `url` is what the instance reports as loaded
      (`undefined` until `loadSource` runs). */
  datatype HlsHandle = HlsHandle(id: nat, source: string, url: Option<string>)

  /** The logged calls on hls.js instances, in the order they were made: the
      constructor, `attachMedia`, `loadSource`, `startLoad`, `recoverMediaError` and
      `destroy`. Registering the event listeners is implied by `Create`. */
  datatype HlsOp =
    | Create(h: nat)
    | AttachMedia(h: nat)
    | LoadSource(h: nat, url: string)
    | StartLoad(h: nat)
    | RecoverMediaError(h: nat)
    | Destroy(h: nat)

  /** The live instance, if any, and how many instances were created so far. */
  datatype Ownership = Ownership(live: Option<nat>, created: nat)

  const Unowned := Ownership(None, 0)

  /** One call under the ownership discipline: an instance is created only when none
      is live (and gets the next number), calls go only to the live instance,
      and destroying it leaves none live. `None` marks a violation. */
  function Step(o: Ownership, op: HlsOp): Option<Ownership> {
    match op
    case Create(h) => if o.live.None? && h == o.created then Some(Ownership(Some(h), o.created + 1)) else None
    case Destroy(h) => if o.live == Some(h) then Some(Ownership(None, o.created)) else None
    case _ => if o.live == Some(op.h) then Some(o) else None
  }

  function Run(o: Ownership, log: seq<HlsOp>): Option<Ownership>
    decreases |log|
  {
    if log == [] then Some(o)
    else
      match Step(o, log[0])
      case None => None
      case Some(o') => Run(o', log[1..])
  }

  lemma {:induction false} RunAppend(o: Ownership, s: seq<HlsOp>, t: seq<HlsOp>)
    ensures Run(o, s + t) == (match Run(o, s) case None => None case Some(o') => Run(o', t))
    decreases |s|
  {
    if s == [] {
      assert s + t == t;
    } else {
      assert (s + t)[1..] == s[1..] + t;
      match Step(o, s[0]) {
        case None =>
        case Some(o') => RunAppend(o', s[1..], t);
      }
    }
  }

  /** While `a` is live, the first creation of a new instance is preceded by the
      destruction of `a`. */
  lemma {:induction false} LiveUntilDestroyed(o: Ownership, log: seq<HlsOp>, a: nat, j: nat)
    requires o.live == Some(a) && Run(o, log).Some?
    requires j < |log| && log[j].Create?
    ensures exists k :: 0 <= k < j && log[k] == Destroy(a)
  {
    if log[0] != Destroy(a) {
      var o' := Step(o, log[0]).value;
      assert o' == o;
      LiveUntilDestroyed(o', log[1..], a, j - 1);
      var k :| 0 <= k < j - 1 && log[1..][k] == Destroy(a);
      assert log[k + 1] == Destroy(a);
    }
  }

  /** In a log that keeps the discipline, any two creations are separated by the
      destruction of the first instance: there is never more than one instance,
      and a stale one is destroyed before a new one is made. */
  lemma DestroyBetweenCreates(log: seq<HlsOp>, i: nat, j: nat)
    requires Run(Unowned, log).Some?
    requires i < j < |log| && log[i].Create? && log[j].Create?
    ensures exists k :: i < k < j && log[k] == Destroy(log[i].h)
  {
    var before, after := log[..i + 1], log[i + 1..];
    assert log == before + after;
    RunAppend(Unowned, before, after);
    assert before == log[..i] + [log[i]];
    RunAppend(Unowned, log[..i], [log[i]]);
    var o := Run(Unowned, before).value;
    LiveUntilDestroyed(o, after, log[i].h, j - i - 1);
    var k :| 0 <= k < j - i - 1 && after[k] == Destroy(log[i].h);
    assert log[i + 1 + k] == Destroy(log[i].h);
  }

  function DestroyOf(h: Option<HlsHandle>): seq<HlsOp> {
    if h.Some? then [Destroy(h.value.id)] else []
  }

  lemma RunSnoc(log: seq<HlsOp>, op: HlsOp)
    requires Run(Unowned, log).Some?
    ensures Run(Unowned, log + [op]) == Step(Run(Unowned, log).value, op)
  {
    RunAppend(Unowned, log, [op]);
    assert [op][1..] == [];
  }

  /** Creating and attaching the next instance when none is live keeps the discipline. */
  lemma RunCreate(log: seq<HlsOp>, id: nat)
    requires Run(Unowned, log) == Some(Ownership(None, id))
    ensures Run(Unowned, log + [Create(id), AttachMedia(id)]) == Some(Ownership(Some(id), id + 1))
  {
    RunSnoc(log, Create(id));
    RunSnoc(log + [Create(id)], AttachMedia(id));
    assert log + [Create(id)] + [AttachMedia(id)] == log + [Create(id), AttachMedia(id)];
  }

  // ---------------------------------------------------------------------------
  // Station helpers

  /** `station.url_resolved || station.url`: empty only when both are. */
  function PlayUrl(s: Station): (r: string)
    ensures r == "" <==> s.urlResolved == "" && s.url == ""
    ensures r == s.urlResolved || r == s.url
  {
    if s.urlResolved != "" then s.urlResolved else s.url
  }

  /** Station `i` is the first whose play URL is `url`. */
  predicate FirstWithUrl(stations: seq<Station>, i: int, url: Option<string>) {
    && 0 <= i < |stations|
    && Some(PlayUrl(stations[i])) == url
    && forall k :: 0 <= k < i ==> Some(PlayUrl(stations[k])) != url
  }

  /** `allRadioStations.find(s => (s.url_resolved || s.url) === url)`. */
  function FindStation(stations: seq<Station>, url: Option<string>): (r: Option<Station>)
    ensures r.Some? ==> exists i :: FirstWithUrl(stations, i, url) && stations[i] == r.value
    ensures r.Some? ==> r.value in stations && Some(PlayUrl(r.value)) == url
    ensures r.None? ==> forall s :: s in stations ==> Some(PlayUrl(s)) != url
  {
    if stations == [] then None
    else if Some(PlayUrl(stations[0])) == url then
      assert FirstWithUrl(stations, 0, url);
      Some(stations[0])
    else
      var r := FindStation(stations[1..], url);
      assert forall i :: 1 <= i < |stations| ==> stations[i] == stations[1..][i - 1];
      assert r.Some? ==> exists i :: FirstWithUrl(stations, i, url) && stations[i] == r.value by {
        if r.Some? {
          var i :| FirstWithUrl(stations[1..], i, url) && stations[1..][i] == r.value;
          assert FirstWithUrl(stations, i + 1, url);
        }
      }
      r
  }

  /** Entry `i` is the first ranked station with a play URL. */
  predicate FirstWithPlayUrl(rs: seq<RankedStation>, i: int) {
    && 0 <= i < |rs|
    && PlayUrl(rs[i].station) != ""
    && forall k :: 0 <= k < i ==> PlayUrl(rs[k].station) == ""
  }

  /** `filteredStations.find(s => s.url_resolved || s.url)`. */
  function FirstPlayable(rs: seq<RankedStation>): (r: Option<Station>)
    ensures r.Some? ==> exists i :: FirstWithPlayUrl(rs, i) && rs[i].station == r.value
    ensures r.Some? ==> PlayUrl(r.value) != ""
    ensures r.None? ==> forall i :: 0 <= i < |rs| ==> PlayUrl(rs[i].station) == ""
  {
    if rs == [] then None
    else if PlayUrl(rs[0].station) != "" then
      assert FirstWithPlayUrl(rs, 0);
      Some(rs[0].station)
    else
      var r := FirstPlayable(rs[1..]);
      assert forall i :: 1 <= i < |rs| ==> rs[i] == rs[1..][i - 1];
      assert r.Some? ==> exists i :: FirstWithPlayUrl(rs, i) && rs[i].station == r.value by {
        if r.Some? {
          var i :| FirstWithPlayUrl(rs[1..], i) && rs[1..][i].station == r.value;
          assert FirstWithPlayUrl(rs, i + 1);
        }
      }
      r
  }

  /** What `handlePlayPause` did: rejected a station without URL, stopped the
      playing stream, or switched to (and logged a click for) `url`. */
  datatype PlayRequest = MissingUrl | StoppedPlaying | Started(url: string)

  class FullMapState {
    var balloons: seq<Windborne.Balloon>
    var selectedBalloon: Option<Windborne.Balloon>
    var isRandomHopActive: bool
    var allRadioStations: seq<Station>
    var filteredStations: seq<RankedStation>
    var pendingPlay: Option<Station>     // the auto-play timer, until it fires or is cleared

    var playingUrl: Option<string>
    var isPlaying: bool
    var hls: Option<HlsHandle>           // hlsRef.current
    var audioMounted: bool               // audioRef.current !== null
    var audioSrc: string
    var audioPaused: bool
    var hlsCount: nat                    // hls.js instances created so far
    var hlsLog: seq<HlsOp>               // every call made on an hls.js instance

    /** The controller's invariant: the call log keeps the ownership discipline and
        ends with `hlsRef` as its live instance; a stream is set exactly while
        playing; a live handle belongs to the stream being played. */
    ghost predicate Valid()
      reads this
    {
      && Run(Unowned, hlsLog) == Some(Ownership(if hls.Some? then Some(hls.value.id) else None, hlsCount))
      && isPlaying == playingUrl.Some?
      && (playingUrl.Some? ==> playingUrl.value != "")
      && (pendingPlay.Some? ==> PlayUrl(pendingPlay.value) != "")
      && (hls.Some? ==> playingUrl == Some(hls.value.source)
                        && (hls.value.url.None? || hls.value.url == Some(hls.value.source)))
    }

    /** Nothing plays and no transport is held. */
    ghost predicate Stopped()
      reads this
    {
      !isPlaying && playingUrl.None? && hls.None? && (audioMounted ==> audioSrc == "" && audioPaused)
    }

    /** Everything but playback: the selection, the hop, the station lists and the
        pending auto-play. */
    ghost function SelectionState(): (seq<Windborne.Balloon>, Option<Windborne.Balloon>, bool, seq<Station>, seq<RankedStation>, Option<Station>)
      reads this
    {
      (balloons, selectedBalloon, isRandomHopActive, allRadioStations, filteredStations, pendingPlay)
    }

    ghost function PlaybackState(): (Option<string>, bool, Option<HlsHandle>, bool, string, bool, nat, seq<HlsOp>)
      reads this
    {
      (playingUrl, isPlaying, hls, audioMounted, audioSrc, audioPaused, hlsCount, hlsLog)
    }

    /** The `useState`/`useRef` initial values, before the audio element is mounted. */
    constructor ()
      ensures Valid() && Stopped()
      ensures balloons == [] && selectedBalloon.None? && !isRandomHopActive
      ensures allRadioStations == [] && filteredStations == [] && pendingPlay.None?
      ensures !audioMounted && hlsLog == [] && hlsCount == 0
    {
      balloons, selectedBalloon, isRandomHopActive := [], None, false;
      allRadioStations, filteredStations, pendingPlay := [], [], None;
      playingUrl, isPlaying, hls := None, false, None;
      audioMounted, audioSrc, audioPaused := false, "", true;
      hlsCount, hlsLog := 0, [];
    }

    /** React attaches the `<audio>` element to `audioRef`. */
    method MountAudio()
      requires Valid()
      modifies this
      ensures Valid() && audioMounted
      ensures !old(audioMounted) ==> audioSrc == "" && audioPaused
      ensures old(audioMounted) ==> audioSrc == old(audioSrc) && audioPaused == old(audioPaused)
      ensures SelectionState() == old(SelectionState())
      ensures playingUrl == old(playingUrl) && isPlaying == old(isPlaying) && hls == old(hls)
      ensures hlsCount == old(hlsCount) && hlsLog == old(hlsLog)
    {
      if !audioMounted {
        audioMounted, audioSrc, audioPaused := true, "", true;
      }
    }

    /** `stopPlayback`. Stopping a stopped controller changes nothing. */
    method StopPlayback()
      requires Valid()
      modifies this
      ensures Valid() && Stopped()
      ensures audioMounted == old(audioMounted)
      ensures !audioMounted ==> audioSrc == old(audioSrc) && audioPaused == old(audioPaused)
      ensures hlsLog == old(hlsLog) + DestroyOf(old(hls)) && hlsCount == old(hlsCount)
      ensures SelectionState() == old(SelectionState())
      ensures old(Stopped()) ==> PlaybackState() == old(PlaybackState())
    {
      ReleaseHandle();
      isPlaying := false;
      playingUrl := None;
      if audioMounted {
        audioPaused := true;
        audioSrc := "";
      }
    }

    /** `hlsRef.current.destroy(); hlsRef.current = null`, when a handle is held. */
    method ReleaseHandle()
      requires Valid()
      modifies this
      ensures Valid() && hls.None?
      ensures hlsLog == old(hlsLog) + DestroyOf(old(hls)) && hlsCount == old(hlsCount)
      ensures old(hls).None? ==> hlsLog == old(hlsLog)
      ensures playingUrl == old(playingUrl) && isPlaying == old(isPlaying)
      ensures audioMounted == old(audioMounted) && audioSrc == old(audioSrc) && audioPaused == old(audioPaused)
      ensures SelectionState() == old(SelectionState())
    {
      if hls.Some? {
        RunSnoc(hlsLog, Destroy(hls.value.id));
        hlsLog := hlsLog + [Destroy(hls.value.id)];
        hls := None;
      }
    }

    /** `new Hls()`, its listeners registered for `url`, then `attachMedia(audio)`. */
    method CreateHandle(url: string)
      requires Valid() && hls.None? && playingUrl == Some(url)
      modifies this
      ensures Valid()
      ensures hls == Some(HlsHandle(old(hlsCount), url, None)) && hlsCount == old(hlsCount) + 1
      ensures hlsLog == old(hlsLog) + [Create(old(hlsCount)), AttachMedia(old(hlsCount))]
      ensures playingUrl == old(playingUrl) && isPlaying == old(isPlaying)
      ensures audioMounted == old(audioMounted) && audioSrc == old(audioSrc) && audioPaused == old(audioPaused)
      ensures SelectionState() == old(SelectionState())
    {
      var id := hlsCount;
      RunCreate(hlsLog, id);
      hls := Some(HlsHandle(id, url, None));
      hlsCount := hlsCount + 1;
      hlsLog := hlsLog + [Create(id), AttachMedia(id)];
    }

    /** `handlePlayPause(station)`. */
    method HandlePlayPause(station: Station) returns (outcome: PlayRequest)
      requires Valid()
      modifies this
      ensures Valid()
      ensures SelectionState() == old(SelectionState())
      ensures PlayUrl(station) == "" ==> outcome == MissingUrl && PlaybackState() == old(PlaybackState())
      ensures PlayUrl(station) != "" && old(isPlaying) && old(playingUrl) == Some(PlayUrl(station)) ==>
        outcome == StoppedPlaying && Stopped()
      ensures PlayUrl(station) != "" && !(old(isPlaying) && old(playingUrl) == Some(PlayUrl(station))) ==>
        outcome == Started(PlayUrl(station)) && playingUrl == Some(PlayUrl(station)) && isPlaying && hls.None?
      ensures outcome != MissingUrl ==> hlsLog == old(hlsLog) + DestroyOf(old(hls)) && hlsCount == old(hlsCount)
      ensures outcome != MissingUrl && old(isPlaying) && audioMounted ==> audioSrc == "" && audioPaused
      ensures !(outcome != MissingUrl && old(isPlaying) && audioMounted) ==>
        audioSrc == old(audioSrc) && audioPaused == old(audioPaused)
      ensures audioMounted == old(audioMounted)
    {
      var urlToPlay := PlayUrl(station);
      if urlToPlay == "" {
        return MissingUrl;
      }
      if playingUrl == Some(urlToPlay) && isPlaying {
        StopPlayback();
        outcome := StoppedPlaying;
      } else {
        if playingUrl.Some? && playingUrl.value != "" && isPlaying {
          StopPlayback();
        }
        playingUrl := Some(urlToPlay);
        isPlaying := true;
        outcome := Started(urlToPlay);
      }
    }

    /** The transport effect, run whenever the stream, the playing flag or the
        station list changes. `hlsSupported` is `Hls.isSupported()`. Returns whether
        it gave up on an HLS stream the browser cannot play. */
    method TransportEffect(hlsSupported: bool) returns (unsupported: bool)
      requires Valid()
      modifies this
      ensures Valid()
      ensures SelectionState() == old(SelectionState())
      ensures audioMounted == old(audioMounted)
      ensures !old(audioMounted) ==> PlaybackState() == old(PlaybackState()) && !unsupported
      ensures old(audioMounted) && !old(isPlaying) ==>
        !unsupported && audioPaused && audioSrc == old(audioSrc)
        && playingUrl == old(playingUrl) && isPlaying == old(isPlaying) && hls == old(hls)
        && hlsLog == old(hlsLog) && hlsCount == old(hlsCount)
      ensures old(audioMounted) && old(isPlaying) ==>
        var url := old(playingUrl).value;
        var current := FindStation(old(allRadioStations), old(playingUrl));
        var hlsStream := current.Some? && current.value.hls == 1;
        var reuse := old(hls).Some? && old(hls).value.url == old(playingUrl);
        && unsupported == (hlsStream && !hlsSupported)
        && (hlsStream && hlsSupported && reuse ==>
              hls == old(hls) && hlsLog == old(hlsLog) && hlsCount == old(hlsCount)
              && isPlaying && playingUrl == old(playingUrl) && !audioPaused && audioSrc == old(audioSrc))
        && (hlsStream && hlsSupported && !reuse ==>
              hls == Some(HlsHandle(old(hlsCount), url, None))
              && hlsLog == old(hlsLog) + DestroyOf(old(hls)) + [Create(old(hlsCount)), AttachMedia(old(hlsCount))]
              && hlsCount == old(hlsCount) + 1
              && isPlaying && playingUrl == old(playingUrl)
              && audioPaused == old(audioPaused) && audioSrc == old(audioSrc))
        && (hlsStream && !hlsSupported ==>
              Stopped() && hlsLog == old(hlsLog) + DestroyOf(old(hls)) && hlsCount == old(hlsCount))
        && (!hlsStream ==>
              hls.None? && hlsLog == old(hlsLog) + DestroyOf(old(hls)) && hlsCount == old(hlsCount)
              && isPlaying && playingUrl == old(playingUrl) && audioSrc == url && !audioPaused)
    {
      unsupported := false;
      if !audioMounted {
        return;
      }
      var currentStation := FindStation(allRadioStations, playingUrl);
      var isHls := currentStation.Some? && currentStation.value.hls == 1 && hlsSupported;
      if playingUrl.Some? && playingUrl.value != "" && isPlaying {
        var url := playingUrl.value;
        if hls.Some? && (!isHls || hls.value.url != playingUrl) {
          ReleaseHandle();
        }
        if isHls {
          if hls.None? {
            CreateHandle(url);
          } else if hls.value.url != playingUrl {
            // Unreachable: a handle whose url differs was destroyed just above.
            assert false;
          } else {
            if audioPaused {
              audioPaused := false;
            }
          }
        } else if currentStation.Some? && currentStation.value.hls == 1 && !hlsSupported {
          unsupported := true;
          StopPlayback();
        } else {
          if audioSrc != url {
            audioSrc := url;
          }
          audioPaused := false;
        }
      } else {
        if !isPlaying && !audioPaused {
          audioPaused := true;
        }
      }
    }

    /** The `Hls.Events.ERROR` listener of instance `h`. Listeners of a destroyed
        instance no longer fire. */
    method OnHlsError(h: nat, fatal: bool, kind: HlsErrorType)
      requires Valid()
      modifies this
      ensures Valid()
      ensures SelectionState() == old(SelectionState())
      ensures !(fatal && old(hls).Some? && old(hls).value.id == h) ==> PlaybackState() == old(PlaybackState())
      ensures fatal && old(hls).Some? && old(hls).value.id == h ==>
        && (kind == NetworkErrorType ==>
              hlsLog == old(hlsLog) + [StartLoad(h)] && hls == old(hls) && isPlaying == old(isPlaying)
              && playingUrl == old(playingUrl) && audioSrc == old(audioSrc) && audioPaused == old(audioPaused))
        && (kind == MediaErrorType ==>
              hlsLog == old(hlsLog) + [RecoverMediaError(h)] && hls == old(hls) && isPlaying == old(isPlaying)
              && playingUrl == old(playingUrl) && audioSrc == old(audioSrc) && audioPaused == old(audioPaused))
        && (kind == OtherErrorType ==>
              Stopped() && hlsLog == old(hlsLog) + [Destroy(h)]
              && (!audioMounted ==> audioSrc == old(audioSrc) && audioPaused == old(audioPaused)))
      ensures hlsCount == old(hlsCount) && audioMounted == old(audioMounted)
    {
      if fatal && hls.Some? && hls.value.id == h {
        match kind {
          case NetworkErrorType =>
            RunSnoc(hlsLog, StartLoad(h));
            hlsLog := hlsLog + [StartLoad(h)];
          case MediaErrorType =>
            RunSnoc(hlsLog, RecoverMediaError(h));
            hlsLog := hlsLog + [RecoverMediaError(h)];
          case OtherErrorType =>
            StopPlayback();
        }
      }
    }

    /** The `MEDIA_ATTACHED` listener of instance `h`: it loads the stream the
        instance was created for. */
    method OnMediaAttached(h: nat)
      requires Valid()
      modifies this
      ensures Valid()
      ensures SelectionState() == old(SelectionState())
      ensures !(old(hls).Some? && old(hls).value.id == h) ==> PlaybackState() == old(PlaybackState())
      ensures old(hls).Some? && old(hls).value.id == h ==>
        hls == Some(old(hls).value.(url := Some(old(hls).value.source)))
        && hlsLog == old(hlsLog) + [LoadSource(h, old(hls).value.source)]
        && playingUrl == old(playingUrl) && isPlaying == old(isPlaying) && hlsCount == old(hlsCount)
        && audioMounted == old(audioMounted) && audioSrc == old(audioSrc) && audioPaused == old(audioPaused)
    {
      if hls.Some? && hls.value.id == h {
        var source := hls.value.source;
        RunSnoc(hlsLog, LoadSource(h, source));
        hlsLog := hlsLog + [LoadSource(h, source)];
        hls := Some(hls.value.(url := Some(source)));
      }
    }

    /** The `MANIFEST_PARSED` listener of instance `h`: it starts the audio element. */
    method OnManifestParsed(h: nat)
      requires Valid()
      modifies this
      ensures Valid()
      ensures SelectionState() == old(SelectionState())
      ensures old(hls).Some? && old(hls).value.id == h && audioMounted ==> !audioPaused
      ensures !(old(hls).Some? && old(hls).value.id == h && audioMounted) ==> audioPaused == old(audioPaused)
      ensures playingUrl == old(playingUrl) && isPlaying == old(isPlaying) && hls == old(hls)
      ensures hlsLog == old(hlsLog) && hlsCount == old(hlsCount)
      ensures audioMounted == old(audioMounted) && audioSrc == old(audioSrc)
    {
      if hls.Some? && hls.value.id == h && audioMounted {
        audioPaused := false;
      }
    }

    /** A rejected `audio.play()` promise: every such handler stops playback. */
    method OnPlayRejected()
      requires Valid()
      modifies this
      ensures Valid() && Stopped()
      ensures audioMounted == old(audioMounted)
      ensures !audioMounted ==> audioSrc == old(audioSrc) && audioPaused == old(audioPaused)
      ensures hlsLog == old(hlsLog) + DestroyOf(old(hls)) && hlsCount == old(hlsCount)
      ensures SelectionState() == old(SelectionState())
    {
      StopPlayback();
    }

    /** `handleBalloonClick(balloon)`: clicking the selected balloon (by id)
        deselects it, any other click selects the clicked balloon. */
    method HandleBalloonClick(balloon: Windborne.Balloon)
      requires Valid()
      modifies this
      ensures Valid()
      ensures !isRandomHopActive
      ensures old(selectedBalloon).Some? && old(selectedBalloon).value.id == balloon.id ==> selectedBalloon.None?
      ensures !(old(selectedBalloon).Some? && old(selectedBalloon).value.id == balloon.id) ==> selectedBalloon == Some(balloon)
      ensures balloons == old(balloons) && allRadioStations == old(allRadioStations) && filteredStations == old(filteredStations)
      ensures pendingPlay == old(pendingPlay)
      ensures PlaybackState() == old(PlaybackState())
    {
      isRandomHopActive := false;
      if selectedBalloon.Some? && selectedBalloon.value.id == balloon.id {
        selectedBalloon := None;
      } else {
        selectedBalloon := Some(balloon);
      }
    }

    /** `handleCloseCard`. */
    method HandleCloseCard()
      requires Valid()
      modifies this
      ensures Valid() && Stopped()
      ensures selectedBalloon.None? && !isRandomHopActive
      ensures balloons == old(balloons) && allRadioStations == old(allRadioStations) && filteredStations == old(filteredStations)
      ensures pendingPlay == old(pendingPlay)
      ensures audioMounted == old(audioMounted)
      ensures !audioMounted ==> audioSrc == old(audioSrc) && audioPaused == old(audioPaused)
      ensures hlsLog == old(hlsLog) + DestroyOf(old(hls)) && hlsCount == old(hlsCount)
    {
      selectedBalloon := None;
      StopPlayback();
      isRandomHopActive := false;
    }

    /** `handleRandomHop`, with `r` the draw of `Math.random()`: nothing happens
        when no balloon is loaded; otherwise playback stops and the balloon at
        `floor(r * n)` is selected. */
    method HandleRandomHop(r: Windborne.Draw) returns (hopped: Option<Windborne.Balloon>)
      requires Valid()
      modifies this
      ensures Valid()
      ensures old(balloons) == [] ==> hopped.None? && SelectionState() == old(SelectionState())
                                      && PlaybackState() == old(PlaybackState())
      ensures old(balloons) != [] ==>
        hopped == Some(old(balloons)[Windborne.ScaledIndex(r, |old(balloons)|)])
        && selectedBalloon == hopped && isRandomHopActive && Stopped()
        && hlsLog == old(hlsLog) + DestroyOf(old(hls)) && hlsCount == old(hlsCount)
      ensures balloons == old(balloons) && allRadioStations == old(allRadioStations) && filteredStations == old(filteredStations)
      ensures pendingPlay == old(pendingPlay)
      ensures audioMounted == old(audioMounted)
      ensures !audioMounted ==> audioSrc == old(audioSrc) && audioPaused == old(audioPaused)
    {
      if |balloons| == 0 {
        return None;
      }
      StopPlayback();
      var randomIndex := Windborne.ScaledIndex(r, |balloons|);
      selectedBalloon := Some(balloons[randomIndex]);
      isRandomHopActive := true;
      hopped := selectedBalloon;
    }

    /** `loadBalloonData` once `fetchBalloonData` has produced `data`: the selection
        is cleared and the balloons replaced. */
    method LoadBalloonData(data: seq<Windborne.Balloon>)
      requires Valid()
      modifies this
      ensures Valid()
      ensures balloons == data && selectedBalloon.None?
      ensures isRandomHopActive == old(isRandomHopActive) && allRadioStations == old(allRadioStations)
      ensures filteredStations == old(filteredStations) && pendingPlay == old(pendingPlay)
      ensures PlaybackState() == old(PlaybackState())
    {
      selectedBalloon := None;
      balloons := data;
    }

    /** `loadAllRadioStations` once `fetchStationsDistributed` has produced `stations`. */
    method LoadAllRadioStations(stations: seq<Station>)
      requires Valid()
      modifies this
      ensures Valid()
      ensures allRadioStations == stations
      ensures balloons == old(balloons) && selectedBalloon == old(selectedBalloon)
      ensures isRandomHopActive == old(isRandomHopActive) && filteredStations == old(filteredStations)
      ensures pendingPlay == old(pendingPlay)
      ensures PlaybackState() == old(PlaybackState())
    {
      allRadioStations := stations;
    }

    /** The ranking effect: recomputes the nearby stations of the selected balloon. */
    method UpdateFilteredStations(dist: Distance)
      requires Valid()
      modifies this
      ensures Valid()
      ensures filteredStations == Nearby(selectedBalloon, allRadioStations, dist)
      ensures balloons == old(balloons) && selectedBalloon == old(selectedBalloon)
      ensures isRandomHopActive == old(isRandomHopActive) && allRadioStations == old(allRadioStations)
      ensures pendingPlay == old(pendingPlay)
      ensures PlaybackState() == old(PlaybackState())
    {
      filteredStations := Nearby(selectedBalloon, allRadioStations, dist);
    }

    /** The auto-play effect, run whenever the hop flag, the ranking or the
        `handlePlayPause` callback changes; the callback changes with the playing
        flag and URL, so a playback change within the 100 ms also runs the cleanup.
        React first runs the cleanup of its previous run, `clearTimeout(timer)`,
        which cancels a pending auto-play. Then, during a hop with ranked stations,
        the first one with a URL is scheduled (a toast reports that there is none)
        and the hop ends. */
    method AutoPlayEffect()
      requires Valid()
      modifies this
      ensures Valid()
      ensures old(isRandomHopActive) && old(filteredStations) != [] ==>
        !isRandomHopActive && pendingPlay == FirstPlayable(filteredStations)
      ensures !(old(isRandomHopActive) && old(filteredStations) != []) ==>
        pendingPlay.None? && isRandomHopActive == old(isRandomHopActive)
      ensures balloons == old(balloons) && selectedBalloon == old(selectedBalloon)
      ensures allRadioStations == old(allRadioStations) && filteredStations == old(filteredStations)
      ensures PlaybackState() == old(PlaybackState())
    {
      pendingPlay := None;
      if isRandomHopActive && |filteredStations| > 0 {
        pendingPlay := FirstPlayable(filteredStations);
        isRandomHopActive := false;
      }
    }

    /** The auto-play effect with a timer that only unmounting cancels: ending the
        hop no longer clears the auto-play it has just scheduled. */
    method AutoPlayEffectKeepingTimer()
      requires Valid()
      modifies this
      ensures Valid()
      ensures old(isRandomHopActive) && old(filteredStations) != [] ==> !isRandomHopActive
      ensures old(isRandomHopActive) && old(filteredStations) != [] && FirstPlayable(filteredStations).Some? ==>
        pendingPlay == FirstPlayable(filteredStations)
      ensures !(old(isRandomHopActive) && old(filteredStations) != [] && FirstPlayable(filteredStations).Some?) ==>
        pendingPlay == old(pendingPlay)
      ensures !(old(isRandomHopActive) && old(filteredStations) != []) ==> isRandomHopActive == old(isRandomHopActive)
      ensures balloons == old(balloons) && selectedBalloon == old(selectedBalloon)
      ensures allRadioStations == old(allRadioStations) && filteredStations == old(filteredStations)
      ensures PlaybackState() == old(PlaybackState())
    {
      if isRandomHopActive && |filteredStations| > 0 {
        var first := FirstPlayable(filteredStations);
        if first.Some? {
          pendingPlay := first;
        }
        isRandomHopActive := false;
      }
    }

    /** The 100 ms auto-play timer fires: the scheduled station goes to
        `handlePlayPause`. Nothing happens when no timer is pending. */
    method FirePendingPlay() returns (outcome: Option<PlayRequest>)
      requires Valid()
      modifies this
      ensures Valid() && pendingPlay.None?
      ensures old(pendingPlay).None? ==> outcome.None? && PlaybackState() == old(PlaybackState())
      ensures old(pendingPlay).Some? && old(isPlaying) && old(playingUrl) == Some(PlayUrl(old(pendingPlay).value)) ==>
        outcome == Some(StoppedPlaying) && Stopped()
      ensures old(pendingPlay).Some? && !(old(isPlaying) && old(playingUrl) == Some(PlayUrl(old(pendingPlay).value))) ==>
        outcome == Some(Started(PlayUrl(old(pendingPlay).value)))
        && playingUrl == Some(PlayUrl(old(pendingPlay).value)) && isPlaying && hls.None?
      ensures audioMounted == old(audioMounted) && hlsCount == old(hlsCount)
      ensures old(pendingPlay).Some? ==> hlsLog == old(hlsLog) + DestroyOf(old(hls))
      ensures old(pendingPlay).Some? && old(isPlaying) && audioMounted ==> audioSrc == "" && audioPaused
      ensures !(old(pendingPlay).Some? && old(isPlaying) && audioMounted) ==>
        audioSrc == old(audioSrc) && audioPaused == old(audioPaused)
      ensures balloons == old(balloons) && selectedBalloon == old(selectedBalloon) && isRandomHopActive == old(isRandomHopActive)
      ensures allRadioStations == old(allRadioStations) && filteredStations == old(filteredStations)
    {
      if pendingPlay.Some? {
        var station := pendingPlay.value;
        pendingPlay := None;
        var request := HandlePlayPause(station);
        outcome := Some(request);
      } else {
        outcome := None;
      }
    }
  }

  /** A random hop onto the only balloon, with a playable station nearby, through the
      effects as written: the ranking fills, the auto-play effect schedules the first
      playable station and ends the hop, and the re-run this causes clears the timer
      before it fires, so nothing plays. */
  method AutoPlayAfterHopAsWritten(b: Windborne.Balloon, stations: seq<Station>, dist: Distance, r: Windborne.Draw)
    returns (scheduled: Option<Station>, playing: bool)
    requires FirstPlayable(Nearby(Some(b), stations, dist)).Some?
    ensures scheduled == FirstPlayable(Nearby(Some(b), stations, dist))
    ensures !playing
  {
    var m := new FullMapState();
    m.LoadBalloonData([b]);
    m.LoadAllRadioStations(stations);
    var hopped := m.HandleRandomHop(r);
    assert m.selectedBalloon == Some(b) && m.isRandomHopActive;
    m.UpdateFilteredStations(dist);
    assert m.filteredStations == Nearby(Some(b), stations, dist) != [];
    m.AutoPlayEffect();
    scheduled := m.pendingPlay;
    m.AutoPlayEffect();
    var outcome := m.FirePendingPlay();
    playing := m.isPlaying;
  }

  /** The same hop with the timer kept across the re-run: the first playable
      nearby station plays. */
  method AutoPlayAfterHopCorrected(b: Windborne.Balloon, stations: seq<Station>, dist: Distance, r: Windborne.Draw)
    returns (playingUrl: Option<string>, playing: bool)
    requires FirstPlayable(Nearby(Some(b), stations, dist)).Some?
    ensures playingUrl == Some(PlayUrl(FirstPlayable(Nearby(Some(b), stations, dist)).value))
    ensures playing
  {
    var m := new FullMapState();
    m.LoadBalloonData([b]);
    m.LoadAllRadioStations(stations);
    var hopped := m.HandleRandomHop(r);
    assert m.selectedBalloon == Some(b) && m.isRandomHopActive;
    m.UpdateFilteredStations(dist);
    assert m.filteredStations == Nearby(Some(b), stations, dist) != [];
    m.AutoPlayEffectKeepingTimer();
    m.AutoPlayEffectKeepingTimer();
    var outcome := m.FirePendingPlay();
    playingUrl, playing := m.playingUrl, m.isPlaying;
  }

  /** Playing one HLS station and then another: the first instance is destroyed
      before the second is created, and the second loads the new stream. */
  method SwitchHlsStations(a: Station, b: Station) returns (log: seq<HlsOp>, live: Option<HlsHandle>)
    requires a.hls == 1 && b.hls == 1
    requires PlayUrl(a) != "" && PlayUrl(b) != "" && PlayUrl(a) != PlayUrl(b)
    ensures log == [Create(0), AttachMedia(0), LoadSource(0, PlayUrl(a)), Destroy(0), Create(1), AttachMedia(1)]
    ensures live == Some(HlsHandle(1, PlayUrl(b), None))
  {
    var m := new FullMapState();
    m.MountAudio();
    m.LoadAllRadioStations([a, b]);
    var first := m.HandlePlayPause(a);
    var unsupported := m.TransportEffect(true);
    m.OnMediaAttached(0);
    m.OnManifestParsed(0);
    assert m.hlsLog == [Create(0), AttachMedia(0), LoadSource(0, PlayUrl(a))];
    var second := m.HandlePlayPause(b);
    assert m.hls.None?;
    unsupported := m.TransportEffect(true);
    log, live := m.hlsLog, m.hls;
  }
}
