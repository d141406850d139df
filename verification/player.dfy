/** The `app` object of script.js: the library, the playlists, the playback
    queue and its current index, the two audio channels that crossfade into each
    other, the multi-selection, and the list edits of the context menu. */
module Player {
  import opened Base
  import opened Catalog
  import opened QueueIndex
  import opened Selection

  /** `audioA` and `audioB`. */
  datatype ChannelId = A | B

  function Other(c: ChannelId): ChannelId
  {
    if c == A then B else A
  }

  /** The state of one audio element that the player logic reads and writes:
      which track it is bound to, `currentTime` (only ever rewound here),
      `volume`, `paused` and `muted`. */
  datatype Channel = Channel(source: Option<SongId>, position: real, volume: real, paused: bool, muted: bool)

  /** An audio element before anything is bound to it. */
  const Silent := Channel(None, 0.0, 1.0, true, false)

  /** An in-flight crossfade: the channel fading in, the master volume captured
      when the fade began, and the fade length in milliseconds. */
  datatype Fade = Fade(incoming: ChannelId, master: real, durationMs: nat)

  /** `document.getElementById('volume-bar').value / 100`. */
  function Master(volumeBar: int): (m: real)
    requires 0 <= volumeBar <= 100
    ensures 0.0 <= m <= 1.0
    ensures m == 0.0 <==> volumeBar == 0
  {
    volumeBar as real / 100.0
  }

  /** The two volumes of a linear fade at progress `p`: the incoming channel at
      `p * m`, the outgoing one at `(1 - p) * m`. */
  function FadeIn(p: real, m: real): real { p * m }
  function FadeOut(p: real, m: real): real { (1.0 - p) * m }

  /** During a fade the two channels always add up to the master volume, each
      stays within it, and as the fade proceeds the incoming channel never gets
      quieter and the outgoing one never gets louder. */
  lemma FadeLaw(p1: real, p2: real, m: real)
    requires 0.0 <= p1 <= p2 < 1.0 && 0.0 <= m <= 1.0
    ensures FadeIn(p1, m) + FadeOut(p1, m) == m
    ensures 0.0 <= FadeIn(p1, m) <= m && 0.0 <= FadeOut(p1, m) <= m
    ensures FadeIn(p1, m) <= FadeIn(p2, m) && FadeOut(p2, m) <= FadeOut(p1, m)
  {
    MulNonneg(p2 - p1, m);
    MulNonneg(1.0 - p1, m);
    MulNonneg(p1, m);
    assert p2 * m - p1 * m == (p2 - p1) * m;
    assert m - p1 * m == (1.0 - p1) * m;
  }

  lemma MulNonneg(a: real, b: real)
    requires a >= 0.0 && b >= 0.0
    ensures a * b >= 0.0
  {
  }

  /** The volume wheel: up (`deltaY < 0`) adds five points, anything else takes
      five away, clamped to `0..100`. */
  function WheelVolume(current: int, deltaY: real): (v: int)
    requires 0 <= current <= 100
    ensures 0 <= v <= 100
    ensures deltaY < 0.0 ==> current <= v <= current + 5 && (v == current + 5 || v == 100)
    ensures deltaY >= 0.0 ==> current - 5 <= v <= current && (v == current - 5 || v == 0)
  {
    if deltaY < 0.0 then
      (if current + 5 < 100 then current + 5 else 100)
    else
      (if current - 5 > 0 then current - 5 else 0)
  }

  /** The index `playNext` moves to before it calls `playSong`: whenever the
      current index is anywhere from -1 to the last entry, a real entry of
      the queue. */
  function NextPick(len: nat, current: int, shuffle: bool, draws: seq<real>): (r: int)
    requires len > 0 && ValidDraws(draws)
    ensures -1 <= current < len ==> 0 <= r < len
  {
    if shuffle then ShuffleIndex(len, current, draws) else NextIndex(current, len)
  }

  /** Whether `playNext({auto})` stops instead of advancing: repeat off, not
      shuffling, and the current index on the last entry, which is exactly
      where stepping forward would wrap to the first entry. */
  predicate StopsAtEnd(auto: bool, shuffle: bool, mode: RepeatMode, current: int, len: nat)
    ensures StopsAtEnd(auto, shuffle, mode, current, len) && len > 0 ==> NextIndex(current, len) == 0
  {
    !shuffle && auto && mode == Off && current == len - 1
  }

  class App {
    var library: seq<Song>
    var playlists: seq<Playlist>
    var queue: seq<Song>
    /** Whether `app.queue` is the very array `app.library` (an identity test in the source). */
    var queueIsLibrary: bool
    var currentIndex: int
    var recentlyPlayed: seq<Song>
    var isPlaying: bool
    var currentView: string
    var selected: seq<SongId>
    var anchor: Option<SongId>
    var isShuffle: bool
    var repeatMode: RepeatMode
    /** Which element `app.audio` is. */
    var active: ChannelId
    var channelA: Channel
    var channelB: Channel
    var isCrossfading: bool
    /** The running fade interval, if any. */
    var fade: Option<Fade>
    /** The volume slider, `0..100`. */
    var volumeBar: int
    /** `settings.crossfade`, in seconds. */
    var crossfade: int

    predicate Valid()
      reads this
    {
      -1 <= currentIndex < |queue| &&
      (queueIsLibrary ==> queue == library) &&
      Distinct(selected) &&
      0 <= volumeBar <= 100 &&
      (isCrossfading <==> fade.Some?) &&
      (fade.Some? ==> fade.value.incoming == active && 0.0 <= fade.value.master <= 1.0 && fade.value.durationMs > 0)
    }

    /** The state after `init` has loaded the stored library, playlists and history. */
    constructor (lib: seq<Song>, pls: seq<Playlist>, history: seq<Song>, volume: int, crossfadeSecs: int)
      requires 0 <= volume <= 100
      ensures Valid()
      ensures library == lib && playlists == pls && queue == [] && currentIndex == -1
      ensures recentlyPlayed == history
      ensures !isPlaying && currentView == "home" && selected == [] && anchor == None
      ensures !isShuffle && repeatMode == All && active == A
      ensures channelA == Silent && channelB == Silent && !isCrossfading && fade == None
      ensures volumeBar == volume && crossfade == crossfadeSecs
    {
      library := lib;
      playlists := pls;
      queue := [];
      queueIsLibrary := false;
      currentIndex := -1;
      recentlyPlayed := history;
      isPlaying := false;
      currentView := "home";
      selected := [];
      anchor := None;
      isShuffle := false;
      repeatMode := All;
      active := A;
      channelA := Silent;
      channelB := Silent;
      isCrossfading := false;
      fade := None;
      volumeBar := volume;
      crossfade := crossfadeSecs;
    }

    function Chan(c: ChannelId): Channel
      reads this`channelA, this`channelB
    {
      if c == A then channelA else channelB
    }

    method SetChan(c: ChannelId, v: Channel)
      modifies this`channelA, this`channelB
      ensures Chan(c) == v && Chan(Other(c)) == old(Chan(Other(c)))
    {
      if c == A { channelA := v; } else { channelB := v; }
    }

    /** `addToRecentlyPlayed(song)`. */
    method AddToRecentlyPlayed(song: Song)
      modifies this`recentlyPlayed
      ensures recentlyPlayed == RecentlyPlayedAfter(old(recentlyPlayed), song)
    {
      var history := DropSongs(recentlyPlayed, [song.id]);
      history := [song] + history;
      if |history| > 10 {
        history := history[..|history| - 1];
      }
      recentlyPlayed := history;
    }

    /** `playImmediate(song)`: cancel a running fade (silencing the other
        channel and putting its volume back to 1), then restart the active
        channel on `song` from the beginning at the master volume. */
    method PlayImmediate(song: Song)
      requires Valid()
      modifies this`fade, this`isCrossfading, this`channelA, this`channelB, this`isPlaying, this`recentlyPlayed
      ensures Valid()
      ensures fade == None && !isCrossfading && isPlaying
      ensures Chan(active) == old(Chan(active)).(source := Some(song.id), volume := Master(volumeBar), position := 0.0, paused := false)
      ensures old(fade).Some? ==> Chan(Other(active)) == old(Chan(Other(active))).(paused := true, volume := 1.0)
      ensures old(fade).None? ==> Chan(Other(active)) == old(Chan(Other(active)))
      ensures recentlyPlayed == RecentlyPlayedAfter(old(recentlyPlayed), song)
    {
      if fade.Some? {
        fade := None;
        isCrossfading := false;
        var other := Other(active);
        SetChan(other, Chan(other).(paused := true, volume := 1.0));
      }
      SetChan(active, Chan(active).(source := Some(song.id), volume := Master(volumeBar), position := 0.0, paused := false));
      isPlaying := true;
      AddToRecentlyPlayed(song);
    }

    /** `performCrossfade(song, seconds)`: bind `song` to the idle channel at
        volume 0, make it the active one, and start a fade that remembers the
        master volume of this moment. */
    method PerformCrossfade(song: Song, seconds: int)
      requires Valid() && seconds > 0
      modifies this`fade, this`isCrossfading, this`channelA, this`channelB, this`isPlaying, this`recentlyPlayed, this`active
      ensures Valid()
      ensures active == Other(old(active)) && isPlaying && isCrossfading
      ensures fade == Some(Fade(active, Master(volumeBar), seconds * 1000))
      ensures Chan(active) == old(Chan(Other(active))).(source := Some(song.id), position := 0.0, volume := 0.0, paused := false)
      ensures Chan(Other(active)) == old(Chan(active))
      ensures recentlyPlayed == RecentlyPlayedAfter(old(recentlyPlayed), song)
    {
      var outgoing := active;
      var incoming := Other(active);
      SetChan(incoming, Chan(incoming).(source := Some(song.id), position := 0.0, volume := 0.0, paused := false));
      var masterVol := Master(volumeBar);
      active := incoming;
      isPlaying := true;
      AddToRecentlyPlayed(song);
      isCrossfading := true;
      fade := Some(Fade(incoming, masterVol, seconds * 1000));
    }

    /** One run of the fade interval, `elapsedMs` after the fade began. */
    method FadeTick(elapsedMs: nat)
      requires Valid() && fade.Some?
      modifies this`fade, this`isCrossfading, this`channelA, this`channelB
      ensures Valid()
      ensures var f := old(fade).value;
        var p := elapsedMs as real / f.durationMs as real;
        var inc := old(Chan(active));
        var out := old(Chan(Other(active)));
        if p >= 1.0 then
          fade == None && !isCrossfading &&
          Chan(active) == inc.(volume := f.master) &&
          Chan(Other(active)) == out.(volume := f.master, paused := true, position := 0.0)
        else
          fade == old(fade) && isCrossfading &&
          Chan(active) == inc.(volume := FadeIn(p, f.master)) &&
          Chan(Other(active)) == out.(volume := FadeOut(p, f.master))
    {
      var f := fade.value;
      var incoming := f.incoming;
      var outgoing := Other(incoming);
      var progress := elapsedMs as real / f.durationMs as real;
      if progress >= 1.0 {
        fade := None;
        isCrossfading := false;
        SetChan(incoming, Chan(incoming).(volume := f.master));
        SetChan(outgoing, Chan(outgoing).(volume := 0.0));
        SetChan(outgoing, Chan(outgoing).(paused := true));
        SetChan(outgoing, Chan(outgoing).(position := 0.0));
        SetChan(outgoing, Chan(outgoing).(volume := f.master));
      } else {
        SetChan(incoming, Chan(incoming).(volume := FadeIn(progress, f.master)));
        SetChan(outgoing, Chan(outgoing).(volume := FadeOut(progress, f.master)));
      }
    }

    /** `playSong(song, queue)`: adopt the queue, point at the first entry with
        the song's id (or -1), then crossfade when a crossfade length is set,
        something is playing and no fade is running, and switch at once
        otherwise. `fromLibrary` says whether `q` is the library array itself. */
    method PlaySong(song: Song, q: seq<Song>, fromLibrary: bool)
      requires Valid() && (fromLibrary ==> q == library)
      modifies this`queue, this`queueIsLibrary, this`currentIndex, this`fade, this`isCrossfading,
        this`channelA, this`channelB, this`isPlaying, this`recentlyPlayed, this`active
      ensures Valid()
      ensures queue == q && queueIsLibrary == fromLibrary && currentIndex == IndexOfId(q, song.id)
      ensures isPlaying && recentlyPlayed == RecentlyPlayedAfter(old(recentlyPlayed), song)
      ensures Chan(active).source == Some(song.id) && Chan(active).position == 0.0 && !Chan(active).paused
      ensures old(crossfade > 0 && isPlaying && !isCrossfading) ==>
        active == Other(old(active)) && isCrossfading && Chan(active).volume == 0.0 &&
        fade == Some(Fade(active, Master(volumeBar), crossfade * 1000)) &&
        Chan(Other(active)) == old(Chan(active))
      ensures !old(crossfade > 0 && isPlaying && !isCrossfading) ==>
        active == old(active) && !isCrossfading && Chan(active).volume == Master(volumeBar)
    {
      queue := q;
      queueIsLibrary := fromLibrary;
      currentIndex := IndexOfId(q, song.id);
      if crossfade > 0 && isPlaying && !isCrossfading {
        PerformCrossfade(song, crossfade);
      } else {
        PlayImmediate(song);
      }
    }

    /** `togglePlay()`: nothing without a bound source; otherwise pause or
        resume the active channel only. */
    method TogglePlay()
      requires Valid()
      modifies this`channelA, this`channelB, this`isPlaying
      ensures Valid()
      ensures old(Chan(active)).source.None? ==> Chan(active) == old(Chan(active)) && isPlaying == old(isPlaying)
      ensures old(Chan(active)).source.Some? ==>
        Chan(active) == old(Chan(active)).(paused := !old(Chan(active)).paused) &&
        isPlaying == old(Chan(active)).paused
      ensures Chan(Other(active)) == old(Chan(Other(active)))
    {
      var audio := Chan(active);
      if audio.source.None? {
        return;
      }
      if audio.paused {
        SetChan(active, audio.(paused := false));
        isPlaying := true;
      } else {
        SetChan(active, audio.(paused := true));
        isPlaying := false;
      }
    }

    /** `playNext({auto})`: nothing on an empty queue or at the end of a
        non-repeating queue when the track ended by itself; otherwise a
        shuffled pick or the next index with wrap-around, then `playSong`. */
    method PlayNext(auto: bool, draws: seq<real>)
      requires Valid() && ValidDraws(draws)
      modifies this`queue, this`queueIsLibrary, this`currentIndex, this`fade, this`isCrossfading,
        this`channelA, this`channelB, this`isPlaying, this`recentlyPlayed, this`active
      ensures Valid()
      ensures queue == old(queue) && queueIsLibrary == old(queueIsLibrary)
      ensures |queue| == 0 || StopsAtEnd(auto, isShuffle, repeatMode, old(currentIndex), |queue|) ==>
        currentIndex == old(currentIndex) && recentlyPlayed == old(recentlyPlayed) &&
        isPlaying == old(isPlaying) && active == old(active) && fade == old(fade) &&
        channelA == old(channelA) && channelB == old(channelB)
      ensures |queue| > 0 && !StopsAtEnd(auto, isShuffle, repeatMode, old(currentIndex), |queue|) ==>
        var k := NextPick(|queue|, old(currentIndex), isShuffle, draws);
        0 <= k < |queue| &&
        currentIndex == IndexOfId(queue, queue[k].id) &&
        isPlaying && Chan(active).source == Some(queue[k].id) &&
        recentlyPlayed == RecentlyPlayedAfter(old(recentlyPlayed), queue[k])
    {
      if |queue| == 0 {
        return;
      }
      var stop := AdvanceIndex(auto, draws);
      if stop {
        return;
      }
      PlaySong(queue[currentIndex], queue, queueIsLibrary);
    }

    /** The index step of `playNext` on a non-empty queue: a shuffled pick,
        the stop at the end of a non-repeating queue after a track ended by
        itself, or the next index with wrap-around. */
    method AdvanceIndex(auto: bool, draws: seq<real>) returns (stop: bool)
      requires Valid() && ValidDraws(draws) && |queue| > 0
      modifies this`currentIndex
      ensures Valid()
      ensures stop == StopsAtEnd(auto, isShuffle, repeatMode, old(currentIndex), |queue|)
      ensures stop ==> currentIndex == old(currentIndex)
      ensures !stop ==> currentIndex == NextPick(|queue|, old(currentIndex), isShuffle, draws)
    {
      stop := false;
      if isShuffle {
        var nextIndex, attempts := ShufflePick(|queue|, currentIndex, draws);
        currentIndex := nextIndex;
      } else {
        if auto && repeatMode == Off && currentIndex == |queue| - 1 {
          stop := true;
          return;
        }
        currentIndex := NextIndex(currentIndex, |queue|);
      }
    }

    /** `playPrev()`: nothing on an empty queue; otherwise step back with
        wrap-around and `playSong`. */
    method PlayPrev()
      requires Valid()
      modifies this`queue, this`queueIsLibrary, this`currentIndex, this`fade, this`isCrossfading,
        this`channelA, this`channelB, this`isPlaying, this`recentlyPlayed, this`active
      ensures Valid()
      ensures queue == old(queue) && queueIsLibrary == old(queueIsLibrary)
      ensures |queue| == 0 ==>
        currentIndex == old(currentIndex) && recentlyPlayed == old(recentlyPlayed) &&
        isPlaying == old(isPlaying) && fade == old(fade) &&
        channelA == old(channelA) && channelB == old(channelB) && active == old(active)
      ensures |queue| > 0 ==>
        var k := PrevIndex(old(currentIndex), |queue|);
        0 <= k < |queue| &&
        currentIndex == IndexOfId(queue, queue[k].id) &&
        isPlaying && Chan(active).source == Some(queue[k].id) &&
        recentlyPlayed == RecentlyPlayedAfter(old(recentlyPlayed), queue[k])
    {
      if |queue| == 0 {
        return;
      }
      StepIndices(currentIndex, |queue|);
      currentIndex := PrevIndex(currentIndex, |queue|);
      PlaySong(queue[currentIndex], queue, queueIsLibrary);
    }

    /** `handleSongEnd(e)`: ignore the element that is not active; under
        repeat-one rewind and replay it; otherwise advance as an automatic next. */
    method HandleSongEnd(ended: ChannelId, draws: seq<real>)
      requires Valid() && ValidDraws(draws)
      modifies this`queue, this`queueIsLibrary, this`currentIndex, this`fade, this`isCrossfading,
        this`channelA, this`channelB, this`isPlaying, this`recentlyPlayed, this`active
      ensures Valid()
      ensures queue == old(queue)
      ensures ended != old(active) ==>
        currentIndex == old(currentIndex) && channelA == old(channelA) && channelB == old(channelB) &&
        active == old(active) && recentlyPlayed == old(recentlyPlayed) &&
        isPlaying == old(isPlaying) && fade == old(fade) && queueIsLibrary == old(queueIsLibrary)
      ensures ended == old(active) && repeatMode == One ==>
        currentIndex == old(currentIndex) && active == old(active) &&
        Chan(active) == old(Chan(active)).(position := 0.0, paused := false) &&
        Chan(Other(active)) == old(Chan(Other(active))) && recentlyPlayed == old(recentlyPlayed) &&
        isPlaying == old(isPlaying) && fade == old(fade) && queueIsLibrary == old(queueIsLibrary)
      ensures (ended == old(active) && repeatMode != One && |queue| > 0 &&
        !StopsAtEnd(true, isShuffle, repeatMode, old(currentIndex), |queue|)) ==>
        var k := NextPick(|queue|, old(currentIndex), isShuffle, draws);
        0 <= k < |queue| && currentIndex == IndexOfId(queue, queue[k].id) &&
        isPlaying && Chan(active).source == Some(queue[k].id) &&
        recentlyPlayed == RecentlyPlayedAfter(old(recentlyPlayed), queue[k]) &&
        queueIsLibrary == old(queueIsLibrary)
      ensures (ended == old(active) && repeatMode != One &&
        (|queue| == 0 || StopsAtEnd(true, isShuffle, repeatMode, old(currentIndex), |queue|))) ==>
        currentIndex == old(currentIndex) && channelA == old(channelA) && channelB == old(channelB) &&
        active == old(active) && recentlyPlayed == old(recentlyPlayed) &&
        isPlaying == old(isPlaying) && fade == old(fade) && queueIsLibrary == old(queueIsLibrary)
    {
      if ended != active {
        return;
      }
      if repeatMode == One {
        SetChan(active, Chan(active).(position := 0.0, paused := false));
        return;
      }
      PlayNext(true, draws);
    }

    /** `toggleShuffle()`. */
    method ToggleShuffle()
      modifies this`isShuffle
      ensures isShuffle == !old(isShuffle)
    {
      isShuffle := !isShuffle;
    }

    /** `toggleRepeat()`: off, all, one, and back to off. */
    method ToggleRepeat()
      modifies this`repeatMode
      ensures repeatMode == NextRepeatMode(old(repeatMode))
      ensures repeatMode != old(repeatMode)
    {
      RepeatModeCycle(repeatMode);
      if repeatMode == Off {
        repeatMode := All;
      } else if repeatMode == All {
        repeatMode := One;
      } else {
        repeatMode := Off;
      }
    }

    /** `toggleMute()`: flips the active channel only. */
    method ToggleMute()
      modifies this`channelA, this`channelB
      ensures Chan(active) == old(Chan(active)).(muted := !old(Chan(active)).muted)
      ensures Chan(Other(active)) == old(Chan(Other(active)))
    {
      SetChan(active, Chan(active).(muted := !Chan(active).muted));
    }

    /** The wheel handler on the volume slider: move the slider by five
        points, set the active channel's volume from it, and unmute when the
        new volume is audible. */
    method VolumeWheel(deltaY: real)
      requires Valid()
      modifies this`volumeBar, this`channelA, this`channelB
      ensures Valid()
      ensures volumeBar == WheelVolume(old(volumeBar), deltaY)
      ensures Chan(active) == old(Chan(active)).(volume := Master(volumeBar),
        muted := old(Chan(active)).muted && volumeBar == 0)
      ensures Chan(Other(active)) == old(Chan(Other(active)))
    {
      var currentVal := WheelVolume(volumeBar, deltaY);
      volumeBar := currentVal;
      SetChan(active, Chan(active).(volume := Master(currentVal)));
      if Chan(active).muted && Chan(active).volume > 0.0 {
        SetChan(active, Chan(active).(muted := false));
      }
    }

    /** `handleSongClick(e, song, songList)`, including the range loop of a shift-click. */
    method HandleSongClick(ctrl: bool, shift: bool, song: Song, songList: seq<Song>)
      requires Valid()
      modifies this`selected, this`anchor
      ensures Valid()
      ensures Picked(selected, anchor) == ClickOutcome(old(selected), old(anchor), ctrl, shift, song.id, songList)
    {
      if ctrl {
        if song.id in selected {
          DropIdsDistinct(selected, [song.id]);
          selected := DropIds(selected, [song.id]);
        } else {
          selected := selected + [song.id];
          anchor := Some(song.id);
        }
      } else if shift && HasAnchor(anchor) {
        var lastIdx := IndexOfId(songList, anchor.value);
        var currIdx := IndexOfId(songList, song.id);
        if lastIdx != -1 && currIdx != -1 {
          AddAllDistinct([], RangeIds(songList, lastIdx, currIdx));
          var start := Min(lastIdx, currIdx);
          var end := Max(lastIdx, currIdx);
          if !ctrl {
            selected := [];
          }
          SelectRows(songList, start, end);
          assert Ids(songList)[start..end + 1] == RangeIds(songList, lastIdx, currIdx);
        }
      } else {
        selected := [song.id];
        anchor := Some(song.id);
      }
    }

    /** The range loop of a shift-click: add the ids of `songList[start..end]`, in order. */
    method SelectRows(songList: seq<Song>, start: nat, end: nat)
      requires start <= end < |songList|
      modifies this`selected
      ensures selected == AddAll(old(selected), Ids(songList)[start..end + 1])
    {
      ghost var ids := Ids(songList);
      for i := start to end + 1
        invariant selected == AddAll(old(selected), ids[start..i])
      {
        assert ids[start..i + 1][..i - start] == ids[start..i];
        selected := Add(selected, songList[i].id);
      }
    }

    /** The selection part of `switchView(viewId)`. */
    method SwitchView(viewId: string)
      requires Valid()
      modifies this`currentView, this`selected, this`anchor
      ensures Valid()
      ensures currentView == viewId && selected == [] && anchor == None
    {
      currentView := viewId;
      selected := [];
      anchor := None;
    }

    /** The document click handler: in the library or a playlist, a click on
        the main content that is not on a row or a control clears the
        selection, but not the anchor. */
    method BackgroundClick(inMainContent: bool, onRow: bool, onControl: bool)
      requires Valid()
      modifies this`selected
      ensures Valid()
      ensures (currentView == "library" || currentView == "playlist") && inMainContent && !onRow && !onControl ==>
        selected == []
      ensures !((currentView == "library" || currentView == "playlist") && inMainContent && !onRow && !onControl) ==>
        selected == old(selected)
    {
      if currentView == "library" || currentView == "playlist" {
        if !inMainContent {
          return;
        }
        if onRow {
          return;
        }
        if !onControl {
          if |selected| > 0 {
            selected := [];
          }
        }
      }
    }

    /** The selection rule of `showContextMenu`: right-clicking an unselected
        row selects it alone and anchors there; a selected row keeps the selection. */
    method SelectForContextMenu(song: Song)
      requires Valid()
      modifies this`selected, this`anchor
      ensures Valid()
      ensures song.id in selected
      ensures song.id in old(selected) ==> selected == old(selected) && anchor == old(anchor)
      ensures song.id !in old(selected) ==> selected == [song.id] && anchor == Some(song.id)
    {
      if song.id !in selected {
        selected := [song.id];
        anchor := Some(song.id);
      }
    }

    /** The tracks `openPlaylist` renders for the playlist at `pi`. */
    function PlaylistSongs(pi: nat): seq<Song>
      reads this
      requires pi < |playlists|
    {
      Materialise(playlists[pi].songs, library)
    }

    /** The state part of `openPlaylist(playlist)`: it switches to the playlist view. */
    method OpenPlaylist(pi: nat)
      requires Valid() && pi < |playlists|
      modifies this`currentView, this`selected, this`anchor
      ensures Valid()
      ensures currentView == "playlist" && selected == [] && anchor == None
    {
      SwitchView("playlist");
    }

    /** A playlist choice in the add-to-playlist dialog: the ids to add are the
        whole selection when no single track was given and the selection is
        not empty, and the one track otherwise; ids already present are
        skipped, and a multi-track add clears the selection. The source fixes
        the ids to add when the dialog opens; here they are read from the
        selection at the moment of the choice, which is the same as long as
        the selection does not change while the dialog is open. */
    method AddToPlaylist(pi: nat, song: Option<SongId>) returns (addedCount: nat)
      requires Valid() && pi < |playlists|
      requires song.Some? || |selected| > 0
      modifies this`playlists, this`selected
      ensures Valid()
      ensures var multi := song.None? && |old(selected)| > 0;
        var toAdd := if multi then old(selected) else [song.value];
        playlists == old(playlists)[pi := old(playlists)[pi].(songs := AddAll(old(playlists)[pi].songs, toAdd))] &&
        addedCount == |playlists[pi].songs| - |old(playlists)[pi].songs| &&
        selected == (if multi then [] else old(selected))
    {
      var isMulti := song.None? && |selected| > 0;
      var songsToAdd := if isMulti then selected else [song.value];
      var pl := playlists[pi];
      var newSongs, added := AppendMissing(pl.songs, songsToAdd);
      playlists := playlists[pi := pl.(songs := newSongs)];
      addedCount := added;
      if isMulti {
        selected := [];
      }
    }

    /** "Remove from Playlist": drop the selected ids (or the one clicked id)
        from the playlist, then reopen it, which clears the selection. */
    method RemoveFromPlaylist(pi: nat, songId: SongId, isMulti: bool)
      requires Valid() && pi < |playlists|
      modifies this`playlists, this`currentView, this`selected, this`anchor
      ensures Valid()
      ensures var gone := if isMulti then old(selected) else [songId];
        playlists == old(playlists)[pi := old(playlists)[pi].(songs := DropIds(old(playlists)[pi].songs, gone))]
      ensures currentView == "playlist" && selected == [] && anchor == None
    {
      var pl := playlists[pi];
      if isMulti {
        playlists := playlists[pi := pl.(songs := DropIds(pl.songs, selected))];
      } else {
        playlists := playlists[pi := pl.(songs := DropIds(pl.songs, [songId]))];
      }
      OpenPlaylist(pi);
    }

    /** "Delete from Library", once confirmed: drop the selected tracks (or
        the one clicked) from the library and from every playlist, reopen the
        playlist when one is shown, and clear the selection. The queue keeps
        its tracks, and it is no longer the library array. */
    method DeleteFromLibrary(songId: SongId, isMulti: bool, confirmed: bool, shownPlaylist: Option<nat>)
      requires Valid()
      requires shownPlaylist.Some? ==> shownPlaylist.value < |playlists|
      modifies this`library, this`queueIsLibrary, this`playlists, this`currentView, this`selected, this`anchor
      ensures Valid()
      ensures !confirmed ==>
        library == old(library) && playlists == old(playlists) &&
        selected == old(selected) && queueIsLibrary == old(queueIsLibrary)
      ensures confirmed ==>
        var gone := if isMulti then old(selected) else [songId];
        library == DropSongs(old(library), gone) &&
        playlists == PrunePlaylists(old(playlists), gone) &&
        !queueIsLibrary && selected == [] &&
        (old(currentView) == "playlist" && shownPlaylist.Some? ==> anchor == None && currentView == "playlist") &&
        (!(old(currentView) == "playlist" && shownPlaylist.Some?) ==> anchor == old(anchor) && currentView == old(currentView))
    {
      if !confirmed {
        return;
      }
      var gone := if isMulti then selected else [songId];
      library := DropSongs(library, gone);
      queueIsLibrary := false;
      playlists := PrunePlaylists(playlists, gone);
      if currentView == "playlist" && shownPlaylist.Some? {
        OpenPlaylist(shownPlaylist.value);
      }
      selected := [];
    }
  }
}
