/** The list helpers of script.js: materialising a playlist's ids into library
    tracks, the recently-played history, adding to a playlist without duplicates,
    and the delete cascade from the library into every playlist. */
module Catalog {
  import opened Base

  /** `new Map(library.map(s => [s.id, s]))`: a later track overwrites an earlier one with the same id. */
  function LibMap(lib: seq<Song>): (m: map<SongId, Song>)
    ensures forall id :: id in m <==> id in Ids(lib)
    ensures forall id :: id in m ==> m[id].id == id && m[id] in lib
  {
    if lib == [] then map[]
    else
      var init := lib[..|lib| - 1];
      var last := lib[|lib| - 1];
      assert Ids(lib) == Ids(init) + [last.id];
      LibMap(init)[last.id := last]
  }

  /** With unique ids in the library, the map finds each track by its own id. */
  lemma {:induction false} LibMapFindsTrack(lib: seq<Song>, s: Song)
    requires Distinct(Ids(lib))
    requires s in lib
    ensures s.id in LibMap(lib) && LibMap(lib)[s.id] == s
  {
    var init := lib[..|lib| - 1];
    var last := lib[|lib| - 1];
    if s != last {
      assert s in init;
      assert Distinct(Ids(init)) by {
        assert forall i :: 0 <= i < |init| ==> Ids(init)[i] == Ids(lib)[i];
      }
      LibMapFindsTrack(init, s);
      assert s.id != last.id by {
        var k :| 0 <= k < |init| && init[k] == s;
        assert Ids(lib)[k] == s.id && Ids(lib)[|lib| - 1] == last.id;
      }
    }
  }

  /** `ids.map(id => libMap.get(id)).filter(s => s)`, which is also what the
      push loop of the library reorder builds: the tracks named by `ids`, in
      that order, with ids missing from the library dropped. */
  function Materialise(ids: seq<SongId>, lib: seq<Song>): (r: seq<Song>)
    ensures |r| <= |ids|
    ensures forall k :: 0 <= k < |r| ==> r[k] in lib
  {
    if ids == [] then []
    else (if ids[0] in LibMap(lib) then [LibMap(lib)[ids[0]]] else []) + Materialise(ids[1..], lib)
  }

  /** The materialised tracks carry exactly the ids of `ids` that the library knows, in order. */
  lemma {:induction false} MaterialiseIds(ids: seq<SongId>, lib: seq<Song>)
    ensures Ids(Materialise(ids, lib)) == KeepIds(ids, Ids(lib))
  {
    if ids != [] {
      MaterialiseIds(ids[1..], lib);
      var m := LibMap(lib);
      var rest := Materialise(ids[1..], lib);
      if ids[0] in m {
        assert Materialise(ids, lib) == [m[ids[0]]] + rest;
        assert KeepIds(ids, Ids(lib)) == [ids[0]] + KeepIds(ids[1..], Ids(lib));
        IdsCons(m[ids[0]], rest);
      } else {
        assert Materialise(ids, lib) == rest;
        assert KeepIds(ids, Ids(lib)) == KeepIds(ids[1..], Ids(lib));
      }
    }
  }

  /** A track is materialised exactly when its id is listed and the library maps that id to it. */
  lemma {:induction false} MaterialiseMembers(ids: seq<SongId>, lib: seq<Song>, s: Song)
    ensures s in Materialise(ids, lib) <==> s.id in ids && s.id in LibMap(lib) && LibMap(lib)[s.id] == s
  {
    if ids != [] {
      MaterialiseMembers(ids[1..], lib, s);
      assert s.id in ids <==> s.id == ids[0] || s.id in ids[1..];
    }
  }

  lemma {:induction false} MaterialiseConcat(a: seq<SongId>, b: seq<SongId>, lib: seq<Song>)
    ensures Materialise(a + b, lib) == Materialise(a, lib) + Materialise(b, lib)
  {
    if a == [] {
      assert a + b == b;
    } else {
      var h := if a[0] in LibMap(lib) then [LibMap(lib)[a[0]]] else [];
      assert (a + b)[0] == a[0];
      assert (a + b)[1..] == a[1..] + b;
      assert Materialise(a + b, lib) == h + Materialise(a[1..] + b, lib);
      assert Materialise(a, lib) == h + Materialise(a[1..], lib);
      MaterialiseConcat(a[1..], b, lib);
    }
  }

  /** Unique ids make the tracks themselves unique. */
  lemma DistinctIdsDistinctSongs(s: seq<Song>)
    requires Distinct(Ids(s))
    ensures Distinct(s)
  {
    forall i, j | 0 <= i < j < |s| ensures s[i] != s[j] {
      assert Ids(s)[i] != Ids(s)[j];
    }
  }

  lemma {:induction false} KeepIdsAll(s: seq<SongId>, keep: seq<SongId>)
    requires forall x :: x in s ==> x in keep
    ensures KeepIds(s, keep) == s
  {
    if s != [] {
      KeepIdsAll(s[1..], keep);
    }
  }

  /** Materialising a reordering of the library's own ids gives back a
      reordering of the library: no track is lost, duplicated or invented. */
  lemma MaterialisePermutation(ids: seq<SongId>, lib: seq<Song>)
    requires Distinct(Ids(lib))
    requires multiset(ids) == multiset(Ids(lib))
    ensures multiset(Materialise(ids, lib)) == multiset(lib)
  {
    var r := Materialise(ids, lib);
    PermutationDistinct(ids, Ids(lib));
    assert forall x :: x in ids <==> x in multiset(ids);
    assert forall x :: x in Ids(lib) <==> x in multiset(Ids(lib));
    MaterialiseIds(ids, lib);
    KeepIdsAll(ids, Ids(lib));
    DistinctIdsDistinctSongs(r);
    DistinctIdsDistinctSongs(lib);
    forall s ensures s in r <==> s in lib {
      MaterialiseMembers(ids, lib, s);
      if s in lib {
        LibMapFindsTrack(lib, s);
        var k :| 0 <= k < |lib| && lib[k] == s;
        assert Ids(lib)[k] == s.id;
      }
    }
    DistinctSameElements(r, lib);
  }

  /** The history after `addToRecentlyPlayed(song)`: earlier entries of the
      same track removed, the track pushed to the front, and the list cut back
      by one entry when it has grown past ten. */
  function RecentlyPlayedAfter(history: seq<Song>, song: Song): (r: seq<Song>)
    ensures |r| >= 1 && r[0] == song
    ensures forall k :: 1 <= k < |r| ==> r[k].id != song.id
    ensures |history| <= 10 ==> |r| <= 10
    ensures |r| <= |DropSongs(history, [song.id])| + 1
    ensures r[1..] == DropSongs(history, [song.id])[..|r| - 1]
    ensures var rest := DropSongs(history, [song.id]);
      |r| == if |rest| >= 10 then |rest| else |rest| + 1
  {
    var rest := DropSongs(history, [song.id]);
    var front := [song] + rest;
    if |front| > 10 then front[..|front| - 1] else front
  }

  /** Playing the same track twice in a row leaves the history as after the first time. */
  lemma RecentlyPlayedIdempotent(history: seq<Song>, song: Song)
    requires |history| <= 10
    ensures RecentlyPlayedAfter(RecentlyPlayedAfter(history, song), song) == RecentlyPlayedAfter(history, song)
  {
    var r := RecentlyPlayedAfter(history, song);
    var tail := r[1..];
    assert forall s :: s in tail ==> s.id != song.id;
    DropSongsNoop(tail, [song.id]);
    assert r == [song] + tail;
    DropSongsFront(song, tail);
  }

  lemma {:induction false} DropSongsNoop(s: seq<Song>, gone: seq<SongId>)
    requires forall x :: x in s ==> x.id !in gone
    ensures DropSongs(s, gone) == s
  {
    if s != [] {
      DropSongsNoop(s[1..], gone);
    }
  }

  lemma DropSongsFront(song: Song, tail: seq<Song>)
    requires DropSongs(tail, [song.id]) == tail
    ensures DropSongs([song] + tail, [song.id]) == tail
  {
    assert ([song] + tail)[1..] == tail;
  }

  /** `playlists.find(p => p.id === id)`: the position of the first playlist with that id. */
  function PlaylistIndex(pls: seq<Playlist>, id: string): (r: Option<nat>)
    ensures r.Some? ==> r.value < |pls| && pls[r.value].id == id
    ensures r.Some? ==> forall k :: 0 <= k < r.value ==> pls[k].id != id
    ensures r.None? ==> forall k :: 0 <= k < |pls| ==> pls[k].id != id
  {
    if pls == [] then None
    else if pls[0].id == id then Some(0)
    else
      var r := PlaylistIndex(pls[1..], id);
      if r.Some? then Some(r.value + 1) else None
  }

  /** `playlists.forEach(p => p.songs = p.songs.filter(id => !gone.includes(id)))` */
  function PrunePlaylists(pls: seq<Playlist>, gone: seq<SongId>): (r: seq<Playlist>)
    ensures |r| == |pls|
    ensures forall i :: 0 <= i < |pls| ==> r[i].id == pls[i].id && r[i].name == pls[i].name
    ensures forall i, x :: 0 <= i < |pls| ==> (x in r[i].songs <==> x in pls[i].songs && x !in gone)
  {
    seq(|pls|, i requires 0 <= i < |pls| => pls[i].(songs := DropIds(pls[i].songs, gone)))
  }

  /** The add-to-playlist loop: each id not yet in the playlist is pushed and counted. */
  method AppendMissing(songs: seq<SongId>, toAdd: seq<SongId>) returns (result: seq<SongId>, added: nat)
    ensures result == AddAll(songs, toAdd)
    ensures added == |result| - |songs|
  {
    result := songs;
    added := 0;
    for i := 0 to |toAdd|
      invariant result == AddAll(songs, toAdd[..i])
      invariant added == |result| - |songs|
    {
      assert toAdd[..i + 1][..i] == toAdd[..i];
      if toAdd[i] !in result {
        result := result + [toAdd[i]];
        added := added + 1;
      }
    }
    assert toAdd[..|toAdd|] == toAdd;
  }

  /** What adding to a playlist promises: the old ids stay first and in order,
      every requested id ends up present, nothing else is added, no id is
      doubled, and the count of added ids is at most the number requested. */
  lemma AddToPlaylistFacts(songs: seq<SongId>, toAdd: seq<SongId>)
    requires Distinct(songs)
    ensures var r := AddAll(songs, toAdd);
      |songs| <= |r| && r[..|songs|] == songs &&
      (forall x :: x in r <==> x in songs || x in toAdd) &&
      Distinct(r) &&
      |r| - |songs| <= |toAdd|
  {
    AddAllMembers(songs, toAdd);
    AddAllDistinct(songs, toAdd);
    AddAllGrowth(songs, toAdd);
  }

  lemma {:induction false} AddAllGrowth(s: seq<SongId>, xs: seq<SongId>)
    ensures |AddAll(s, xs)| <= |s| + |xs|
  {
    if xs != [] {
      AddAllGrowth(s, xs[..|xs| - 1]);
    }
  }
}
