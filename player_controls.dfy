/**
 * `components/PlayerControls.tsx`: moving between albums of the review feed,
 * the guard that starts the next album once when one ends, the track list's
 * favourite flip and click action, the mute button and the polled position.
 * The Spotify SDK and Web API are left out: their answers (the playback
 * state, whether a track is saved) are parameters, and the calls the player
 * makes are results.
 */
module PlayerControls {
  import opened Wrappers
  import opened Text

  /** A review of the feed, as far as the player needs it: its id and its Spotify album link, if it has one. */
  datatype Review = Review(id: int, spotifyAlbum: Option<string>)

  // ---------------------------------------------------------------------------
  // getAlbumFromOffset

  /** `findIndex` on the album uri: the first review linked to that album, or -1; a review without a link never matches. */
  function FindIndex(reviews: seq<Review>, uri: string): (r: int)
    ensures -1 <= r < |reviews|
    ensures r >= 0 ==> reviews[r].spotifyAlbum == Some(uri)
    ensures forall i :: 0 <= i < |reviews| && (r == -1 || i < r) ==> reviews[i].spotifyAlbum != Some(uri)
    decreases |reviews|
  {
    if reviews == [] then -1
    else if reviews[0].spotifyAlbum == Some(uri) then 0
    else
      var k := FindIndex(reviews[1..], uri);
      if k == -1 then -1 else k + 1
  }

  /** `getAlbumFromOffset`: the review `offset` places from the current album's, when there is one. */
  function AlbumFromOffset(reviews: seq<Review>, currentUri: string, offset: int): Option<Review> {
    var i := FindIndex(reviews, currentUri) + offset;
    if 0 <= i < |reviews| then Some(reviews[i]) else None
  }

  /** The album `offset` places from the first review of the current album. */
  lemma AlbumFromOffsetFound(reviews: seq<Review>, currentUri: string, offset: int, k: int)
    requires 0 <= k < |reviews| && reviews[k].spotifyAlbum == Some(currentUri)
    requires forall i :: 0 <= i < k ==> reviews[i].spotifyAlbum != Some(currentUri)
    ensures AlbumFromOffset(reviews, currentUri, offset)
            == if 0 <= k + offset < |reviews| then Some(reviews[k + offset]) else None
  {
    assert FindIndex(reviews, currentUri) == k;
  }

  /** An album missing from the feed counts as index -1: the next one is the first review, there is no previous one. */
  lemma AlbumFromOffsetMissing(reviews: seq<Review>, currentUri: string)
    requires forall i :: 0 <= i < |reviews| ==> reviews[i].spotifyAlbum != Some(currentUri)
    ensures AlbumFromOffset(reviews, currentUri, 1) == if |reviews| > 0 then Some(reviews[0]) else None
    ensures AlbumFromOffset(reviews, currentUri, -1) == None
  {
    assert FindIndex(reviews, currentUri) == -1;
  }

  /** Each linked album reviewed once. */
  ghost predicate DistinctAlbums(reviews: seq<Review>) {
    forall i, j :: 0 <= i < j < |reviews| && reviews[i].spotifyAlbum.Some? ==> reviews[i].spotifyAlbum != reviews[j].spotifyAlbum
  }

  /** In a feed reviewing each linked album once, going forward one album and back one returns to the album. */
  lemma NextThenPrevious(reviews: seq<Review>, k: int)
    requires DistinctAlbums(reviews)
    requires 0 <= k && k + 1 < |reviews|
    requires reviews[k].spotifyAlbum.Some? && reviews[k + 1].spotifyAlbum.Some?
    ensures AlbumFromOffset(reviews, reviews[k].spotifyAlbum.value, 1) == Some(reviews[k + 1])
    ensures AlbumFromOffset(reviews, reviews[k + 1].spotifyAlbum.value, -1) == Some(reviews[k])
  {
    AlbumFromOffsetFound(reviews, reviews[k].spotifyAlbum.value, 1, k);
    AlbumFromOffsetFound(reviews, reviews[k + 1].spotifyAlbum.value, -1, k + 1);
  }

  // ---------------------------------------------------------------------------
  // playNextTrack / playPreviousTrack

  /** The track playing, from the SDK's track window. */
  datatype CurrentTrack = CurrentTrack(id: string, name: string, albumUri: string, artists: seq<string>)

  /** The SDK's playback state: only the fields the player reads; the track window lists are counted. */
  datatype PlaybackState = PlaybackState(
    position: int,
    duration: int,
    paused: bool,
    contextUri: string,
    previousTracks: nat,
    nextTracks: nat,
    current: CurrentTrack)

  /** What the prev/next buttons do. */
  datatype SkipAction = SkipTrack | PlayAlbum(review: Review) | StayPut

  /**
   * `playNextTrack`: with no next track in the window, the next album of the
   * feed, if any; otherwise the next track. A missing state compares
   * `undefined` with 0 and so also skips a track.
   */
  function NextAction(reviews: seq<Review>, s: Option<PlaybackState>): SkipAction {
    if s.Some? && s.value.nextTracks == 0 then
      match AlbumFromOffset(reviews, s.value.contextUri, 1)
      case Some(album) => PlayAlbum(album)
      case None => StayPut
    else SkipTrack
  }

  /** `playPreviousTrack`, the mirror image with the previous tracks and offset -1. */
  function PreviousAction(reviews: seq<Review>, s: Option<PlaybackState>): SkipAction {
    if s.Some? && s.value.previousTracks == 0 then
      match AlbumFromOffset(reviews, s.value.contextUri, -1)
      case Some(album) => PlayAlbum(album)
      case None => StayPut
    else SkipTrack
  }

  /** While the window has tracks left (or no state was read) the buttons only skip a track. */
  lemma SkipWithinAlbum(reviews: seq<Review>, s: Option<PlaybackState>)
    ensures NextAction(reviews, s) == SkipTrack <==> s.None? || s.value.nextTracks > 0
    ensures PreviousAction(reviews, s) == SkipTrack <==> s.None? || s.value.previousTracks > 0
  {
  }

  /**
   * At the edge of an album whose first review is at `k`, next plays the
   * following review's album and previous the preceding one; past either end
   * of the feed nothing happens.
   */
  lemma SkipAcrossAlbums(reviews: seq<Review>, s: PlaybackState, k: int)
    requires 0 <= k < |reviews| && reviews[k].spotifyAlbum == Some(s.contextUri)
    requires forall i :: 0 <= i < k ==> reviews[i].spotifyAlbum != Some(s.contextUri)
    ensures s.nextTracks == 0 ==>
              NextAction(reviews, Some(s)) == if k + 1 < |reviews| then PlayAlbum(reviews[k + 1]) else StayPut
    ensures s.previousTracks == 0 ==>
              PreviousAction(reviews, Some(s)) == if k > 0 then PlayAlbum(reviews[k - 1]) else StayPut
  {
    AlbumFromOffsetFound(reviews, s.contextUri, 1, k);
    AlbumFromOffsetFound(reviews, s.contextUri, -1, k);
  }

  /** Playing an album that is not in the feed, next starts the feed's first album and previous does nothing. */
  lemma SkipFromOutsideFeed(reviews: seq<Review>, s: PlaybackState)
    requires forall i :: 0 <= i < |reviews| ==> reviews[i].spotifyAlbum != Some(s.contextUri)
    requires s.nextTracks == 0 && s.previousTracks == 0
    ensures NextAction(reviews, Some(s)) == if |reviews| > 0 then PlayAlbum(reviews[0]) else StayPut
    ensures PreviousAction(reviews, Some(s)) == StayPut
  {
    AlbumFromOffsetMissing(reviews, s.contextUri);
  }

  // ---------------------------------------------------------------------------
  // the player state provider and its autoplay guard

  /** The state the provider shares with the controls. */
  datatype PlayerState = PlayerState(
    playing: bool,
    album: string,
    artist: string,
    track: string,
    trackId: string,
    duration: int,
    isSaved: bool)

  const InitialPlayerState := PlayerState(false, "", "", "", "", 0, false)

  /** An album that ends returns to its first track, paused, with nothing left in the window. */
  predicate AtAlbumEnd(s: PlaybackState) {
    s.position == 0 && s.paused && s.nextTracks == 0
  }

  /** What the provider records from a playback state, given whether the track is in the library. */
  function Observed(s: PlaybackState, isSaved: bool): PlayerState {
    PlayerState(!s.paused, s.current.albumUri, Join(s.current.artists, ", "), s.current.name,
                s.current.id, s.duration, isSaved)
  }

  /** One `player_state_changed` event: the state (or none) and the library's answer for its track. */
  datatype StateUpdate = StateUpdate(state: Option<PlaybackState>, trackSaved: bool)

  /** The provider's state: the guard flag and the shared player state. */
  datatype Provider = Provider(trying: bool, playerState: PlayerState)

  /**
   * `playerStateChanged`: at an album end with a next album the provider
   * starts that album unless the guard is up, raising it; any other state
   * lowers the guard and is recorded. The album started, if any, is returned.
   */
  function Step(p: Provider, reviews: seq<Review>, u: StateUpdate): (Provider, Option<Review>) {
    match u.state
    case None => (p, None)
    case Some(s) =>
      var nextAlbum := AlbumFromOffset(reviews, p.playerState.album, 1);
      if AtAlbumEnd(s) && nextAlbum.Some? then
        if !p.trying then (p.(trying := true), nextAlbum) else (p, None)
      else (Provider(false, Observed(s, u.trackSaved)), None)
  }

  /** An update that reaches the reset of the guard. */
  predicate Resets(p: Provider, reviews: seq<Review>, u: StateUpdate) {
    u.state.Some? && !(AtAlbumEnd(u.state.value) && AlbumFromOffset(reviews, p.playerState.album, 1).Some?)
  }

  /** A run of updates: the final provider state and the album started at each update. */
  function Run(p: Provider, reviews: seq<Review>, updates: seq<StateUpdate>): (Provider, seq<Option<Review>>)
    decreases |updates|
  {
    if updates == [] then (p, [])
    else
      var (p', played) := Step(p, reviews, updates[0]);
      var (last, rest) := Run(p', reviews, updates[1..]);
      (last, [played] + rest)
  }

  /** How many albums a run started. */
  function Plays(played: seq<Option<Review>>): (n: nat)
    ensures n <= |played|
    decreases |played|
  {
    if played == [] then 0 else (if played[0].Some? then 1 else 0) + Plays(played[1..])
  }

  /** A step starts an album only with the guard down, and then raises it; only a reset lowers it. */
  lemma StepGuard(p: Provider, reviews: seq<Review>, u: StateUpdate)
    ensures Step(p, reviews, u).1.Some? <==>
              !p.trying && !Resets(p, reviews, u) && u.state.Some?
    ensures Step(p, reviews, u).1.Some? ==> Step(p, reviews, u).1 == AlbumFromOffset(reviews, p.playerState.album, 1)
    ensures Step(p, reviews, u).0.trying <==> !Resets(p, reviews, u) && (p.trying || u.state.Some?)
  {
  }

  /** With the guard up, updates that do not reset it start nothing and change nothing. */
  lemma {:induction false} GuardHolds(p: Provider, reviews: seq<Review>, updates: seq<StateUpdate>)
    requires p.trying
    requires forall i :: 0 <= i < |updates| ==> !Resets(p, reviews, updates[i])
    ensures Run(p, reviews, updates).0 == p
    ensures Plays(Run(p, reviews, updates).1) == 0
    decreases |updates|
  {
    if updates != [] {
      assert Step(p, reviews, updates[0]) == (p, None);
      GuardHolds(p, reviews, updates[1..]);
    }
  }

  /** Between two resets of the guard the next album is started at most once. */
  lemma {:induction false} AtMostOncePerReset(p: Provider, reviews: seq<Review>, updates: seq<StateUpdate>)
    requires forall i :: 0 <= i < |updates| ==> !Resets(p, reviews, updates[i])
    ensures Plays(Run(p, reviews, updates).1) <= 1
    decreases |updates|
  {
    if updates != [] {
      var (p', played) := Step(p, reviews, updates[0]);
      assert p'.playerState == p.playerState;
      forall i | 0 <= i < |updates[1..]| ensures !Resets(p', reviews, updates[1..][i]) {
        assert updates[1..][i] == updates[i + 1];
      }
      if p'.trying {
        GuardHolds(p', reviews, updates[1..]);
      } else {
        assert played.None? && p' == p;
        AtMostOncePerReset(p', reviews, updates[1..]);
      }
    }
  }

  /** `PlayerStateContextProvider`: the guard ref and the player state. */
  class PlayerStateProvider {
    var tryingToPlayNextAlbum: bool
    var playerState: PlayerState

    constructor()
      ensures !tryingToPlayNextAlbum && playerState == InitialPlayerState
    {
      tryingToPlayNextAlbum := false;
      playerState := InitialPlayerState;
    }

    /** The `player_state_changed` listener; returns the album handed to `playAlbum`, if any. */
    method PlayerStateChanged(reviews: seq<Review>, u: StateUpdate) returns (played: Option<Review>)
      modifies this
      ensures (Provider(tryingToPlayNextAlbum, playerState), played)
              == Step(Provider(old(tryingToPlayNextAlbum), old(playerState)), reviews, u)
    {
      played := None;
      if u.state.None? {
        return;
      }
      var newState := u.state.value;
      if newState.position == 0 && newState.paused && newState.nextTracks == 0 {
        var nextAlbum := AlbumFromOffset(reviews, playerState.album, 1);
        if nextAlbum.Some? {
          if !tryingToPlayNextAlbum {
            tryingToPlayNextAlbum := true;
            played := nextAlbum;
          }
          return;
        }
      }
      tryingToPlayNextAlbum := false;
      playerState := Observed(newState, u.trackSaved);
    }
  }

  // ---------------------------------------------------------------------------
  // the track list

  /** A track of the album's list, with whether it is in the library. */
  datatype AlbumTrack = AlbumTrack(id: string, uri: string, name: string, isSaved: bool)

  /** The favourite button of `track`: every track with its id gets the opposite of the clicked track's flag. */
  function ToggleTrackSaved(tracks: seq<AlbumTrack>, track: AlbumTrack): (r: seq<AlbumTrack>)
    ensures |r| == |tracks|
  {
    seq(|tracks|, i requires 0 <= i < |tracks| =>
      tracks[i].(isSaved := if tracks[i].id == track.id then !track.isSaved else tracks[i].isSaved))
  }

  /** Only the tracks with the clicked id change, and only in their saved flag. */
  lemma ToggleOnlyThatTrack(tracks: seq<AlbumTrack>, track: AlbumTrack)
    ensures forall i :: 0 <= i < |tracks| && tracks[i].id != track.id ==> ToggleTrackSaved(tracks, track)[i] == tracks[i]
    ensures forall i :: 0 <= i < |tracks| && tracks[i].id == track.id ==>
              ToggleTrackSaved(tracks, track)[i] == tracks[i].(isSaved := !track.isSaved)
  {
  }

  /** Track ids are unique in the list. */
  ghost predicate DistinctIds(tracks: seq<AlbumTrack>) {
    forall i, j :: 0 <= i < j < |tracks| ==> tracks[i].id != tracks[j].id
  }

  /** Clicking the favourite button of the same track twice restores the list. */
  lemma ToggleTwice(tracks: seq<AlbumTrack>, k: int)
    requires DistinctIds(tracks) && 0 <= k < |tracks|
    ensures var once := ToggleTrackSaved(tracks, tracks[k]);
            ToggleTrackSaved(once, once[k]) == tracks
  {
    var once := ToggleTrackSaved(tracks, tracks[k]);
    var twice := ToggleTrackSaved(once, once[k]);
    forall i | 0 <= i < |tracks| ensures twice[i] == tracks[i] {
      if i != k {
        assert tracks[i].id != tracks[k].id;
      }
    }
  }

  /** `toggleFavorite` in the player: the shared flag follows the library only for the track playing. */
  function FavoriteToggled(ps: PlayerState, trackId: string, wasSaved: bool): (r: PlayerState)
    ensures r.trackId == ps.trackId
    ensures r.isSaved == (if trackId == ps.trackId then !wasSaved else ps.isSaved)
    ensures r.(isSaved := ps.isSaved) == ps
  {
    if trackId == ps.trackId then ps.(isSaved := !wasSaved) else ps
  }

  /** What clicking a row does. */
  datatype ClickAction = PausePlayback | PlayFrom(uris: seq<string>)

  function Uris(tracks: seq<AlbumTrack>): (r: seq<string>)
    ensures |r| == |tracks|
    ensures forall i :: 0 <= i < |tracks| ==> r[i] == tracks[i].uri
  {
    seq(|tracks|, i requires 0 <= i < |tracks| => tracks[i].uri)
  }

  /** A row click: pause when that track is the one playing, else play from it to the end of the list. */
  function TrackClick(ps: PlayerState, tracks: seq<AlbumTrack>, index: int): ClickAction
    requires 0 <= index < |tracks|
  {
    if ps.playing && ps.trackId == tracks[index].id then PausePlayback
    else PlayFrom(Uris(tracks[index..]))
  }

  /** A click pauses exactly the playing track; otherwise playback starts at the clicked track and runs through the rest in order. */
  lemma TrackClickPlaysFromThere(ps: PlayerState, tracks: seq<AlbumTrack>, index: int)
    requires 0 <= index < |tracks|
    ensures TrackClick(ps, tracks, index) == PausePlayback <==> ps.playing && ps.trackId == tracks[index].id
    ensures TrackClick(ps, tracks, index).PlayFrom? ==>
              var uris := TrackClick(ps, tracks, index).uris;
              && |uris| == |tracks| - index
              && uris[0] == tracks[index].uri
              && forall j :: 0 <= j < |uris| ==> uris[j] == tracks[index + j].uri
  {
  }

  // ---------------------------------------------------------------------------
  // the controls' own state: mute button and polled position

  /** The volume and the level remembered while muted. */
  datatype Volume = Volume(level: real, beforeMute: real)

  /** The mute button: a non-zero level is remembered and muted; a muted level is restored. */
  function ToggleMute(v: Volume): Volume {
    if v.level != 0.0 then Volume(0.0, v.level) else Volume(v.beforeMute, v.beforeMute)
  }

  /** With a non-zero remembered level the button always switches between muted and sounding, and keeps that level non-zero. */
  lemma ToggleMuteSwitches(v: Volume)
    requires v.beforeMute != 0.0
    ensures (ToggleMute(v).level == 0.0) <==> (v.level != 0.0)
    ensures ToggleMute(v).beforeMute != 0.0
  {
  }

  /** Muting then unmuting gives back the volume there was. */
  lemma MuteThenUnmute(v: Volume)
    requires v.level != 0.0
    ensures ToggleMute(v).level == 0.0
    ensures ToggleMute(ToggleMute(v)).level == v.level
  {
  }

  /** The controls' `currentTime`, `volume` state and `volumeBeforeMute` ref. */
  class Controls {
    var currentTime: int
    var volume: real
    var volumeBeforeMute: real

    /** The remembered level is never zero, so unmuting is never silent. */
    predicate Valid()
      reads this
    {
      volumeBeforeMute != 0.0
    }

    constructor()
      ensures Valid()
      ensures currentTime == 0 && volume == 100.0 && volumeBeforeMute == 1.0
    {
      currentTime := 0;
      volume := 100.0;
      volumeBeforeMute := 1.0;
    }

    /** The mute button; returns the level handed to `player.setVolume`. */
    method ClickMute() returns (newVolume: real)
      requires Valid()
      modifies this
      ensures Valid()
      ensures Volume(volume, volumeBeforeMute) == ToggleMute(Volume(old(volume), old(volumeBeforeMute)))
      ensures newVolume == volume && currentTime == old(currentTime)
    {
      newVolume := volumeBeforeMute;
      if volume != 0.0 {
        volumeBeforeMute := volume;
        newVolume := 0.0;
      }
      volume := newVolume;
    }

    /** The volume slider or the polled `getVolume`: the level changes, the remembered one does not. */
    method VolumeSet(level: real)
      requires Valid()
      modifies this
      ensures Valid()
      ensures volume == level && volumeBeforeMute == old(volumeBeforeMute) && currentTime == old(currentTime)
    {
      volume := level;
    }

    /** The once-a-second poll: a position is taken only when it does not pass the track's duration. */
    method PollPosition(position: Option<int>, duration: int)
      requires Valid()
      modifies this
      ensures Valid()
      ensures currentTime == (if position.Some? && position.value <= duration then position.value else old(currentTime))
      ensures old(currentTime) <= duration ==> currentTime <= duration
      ensures volume == old(volume) && volumeBeforeMute == old(volumeBeforeMute)
    {
      if position.Some? && position.value <= duration {
        currentTime := position.value;
      }
    }
  }
}
