/** Shared vocabulary of the player: track ids, tracks, playlists, and the list
    operations (`findIndex`, `filter`, `Set.add`) the core builds on. */
module Base {

  /** Track ids are opaque strings (generated at import time). */
  type SongId = string

  datatype Option<T> = None | Some(value: T)

  /** A library track. Only `id` takes part in the logic that is modelled. */
  datatype Song = Song(id: SongId, title: string, artist: string, album: string)

  /** A playlist: its `songs` field is an ordered sequence of track ids. */
  datatype Playlist = Playlist(id: string, name: string, songs: seq<SongId>)

  /** `songs.map(s => s.id)` */
  function Ids(songs: seq<Song>): (r: seq<SongId>)
    ensures |r| == |songs|
    ensures forall i :: 0 <= i < |songs| ==> r[i] == songs[i].id
  {
    seq(|songs|, i requires 0 <= i < |songs| => songs[i].id)
  }

  predicate Distinct<T(==)>(s: seq<T>)
  {
    forall i, j :: 0 <= i < j < |s| ==> s[i] != s[j]
  }

  /** `songs.findIndex(s => s.id === id)`: the first position holding `id`, or -1. */
  function IndexOfId(songs: seq<Song>, id: SongId): (r: int)
    ensures -1 <= r < |songs|
    ensures 0 <= r ==> songs[r].id == id
    ensures forall k :: 0 <= k < |songs| && (r == -1 || k < r) ==> songs[k].id != id
  {
    if songs == [] then -1
    else if songs[0].id == id then 0
    else
      var k := IndexOfId(songs[1..], id);
      if k == -1 then -1 else k + 1
  }

  /** With unique ids, looking up the id of the track at `i` finds `i`. */
  lemma IndexOfIdDistinct(songs: seq<Song>, i: int)
    requires Distinct(Ids(songs)) && 0 <= i < |songs|
    ensures IndexOfId(songs, songs[i].id) == i
  {
    forall k | 0 <= k < |songs| && k != i
      ensures songs[k].id != songs[i].id
    {
      assert Ids(songs)[k] == songs[k].id && Ids(songs)[i] == songs[i].id;
    }
  }

  /** `s.filter(x => !gone.includes(x))`; with `gone == [x]` it is `s.filter(y => y !== x)`. */
  function DropIds<T(==,!new)>(s: seq<T>, gone: seq<T>): (r: seq<T>)
    ensures |r| <= |s|
    ensures forall x :: x in r <==> x in s && x !in gone
  {
    if s == [] then []
    else if s[0] in gone then DropIds(s[1..], gone)
    else [s[0]] + DropIds(s[1..], gone)
  }

  /** `s.filter(x => keep.includes(x))`: the complement of DropIds. */
  function KeepIds<T(==,!new)>(s: seq<T>, keep: seq<T>): (r: seq<T>)
    ensures forall x :: x in r <==> x in s && x in keep
  {
    if s == [] then []
    else if s[0] in keep then [s[0]] + KeepIds(s[1..], keep)
    else KeepIds(s[1..], keep)
  }

  /** `lib.filter(s => !gone.includes(s.id))`: the tracks whose id is not in `gone`. */
  function DropSongs(lib: seq<Song>, gone: seq<SongId>): (r: seq<Song>)
    ensures |r| <= |lib|
    ensures forall s :: s in r <==> s in lib && s.id !in gone
  {
    if lib == [] then []
    else if lib[0].id in gone then DropSongs(lib[1..], gone)
    else [lib[0]] + DropSongs(lib[1..], gone)
  }

  /** Dropping tracks by id and dropping their ids agree. */
  lemma {:induction false} DropSongsIds(lib: seq<Song>, gone: seq<SongId>)
    ensures Ids(DropSongs(lib, gone)) == DropIds(Ids(lib), gone)
  {
    if lib != [] {
      DropSongsIds(lib[1..], gone);
      IdsCons(lib[0], lib[1..]);
      assert [lib[0]] + lib[1..] == lib;
      IdsCons(lib[0], DropSongs(lib[1..], gone));
    }
  }

  lemma IdsCons(s: Song, rest: seq<Song>)
    ensures Ids([s] + rest) == [s.id] + Ids(rest)
  {
  }

  /** JavaScript `Set.prototype.add` on an insertion-ordered set kept as a sequence. */
  function Add<T(==)>(s: seq<T>, x: T): (r: seq<T>)
  {
    if x in s then s else s + [x]
  }

  /** Adding the elements of `xs` one after another, in order. */
  function AddAll<T(==)>(s: seq<T>, xs: seq<T>): (r: seq<T>)
  {
    if xs == [] then s else Add(AddAll(s, xs[..|xs| - 1]), xs[|xs| - 1])
  }

  /** Filtering distributes over concatenation: the kept elements stay in order. */
  lemma {:induction false} DropIdsConcat<T(!new)>(a: seq<T>, b: seq<T>, gone: seq<T>)
    ensures DropIds(a + b, gone) == DropIds(a, gone) + DropIds(b, gone)
  {
    if a == [] {
      assert a + b == b;
    } else {
      assert (a + b)[0] == a[0];
      assert (a + b)[1..] == a[1..] + b;
      DropIdsConcat(a[1..], b, gone);
    }
  }

  lemma {:induction false} KeepIdsConcat<T(!new)>(a: seq<T>, b: seq<T>, keep: seq<T>)
    ensures KeepIds(a + b, keep) == KeepIds(a, keep) + KeepIds(b, keep)
  {
    if a == [] {
      assert a + b == b;
    } else {
      assert (a + b)[0] == a[0];
      assert (a + b)[1..] == a[1..] + b;
      KeepIdsConcat(a[1..], b, keep);
    }
  }

  /** Dropping what was already dropped changes nothing. */
  lemma {:induction false} DropIdsIdempotent<T(!new)>(s: seq<T>, gone: seq<T>)
    ensures DropIds(DropIds(s, gone), gone) == DropIds(s, gone)
  {
    if s != [] {
      DropIdsIdempotent(s[1..], gone);
    }
  }

  /** A sequence none of whose elements is in `gone` is left as it is. */
  lemma {:induction false} DropIdsNoop<T(!new)>(s: seq<T>, gone: seq<T>)
    requires forall x :: x in s ==> x !in gone
    ensures DropIds(s, gone) == s
  {
    if s != [] {
      DropIdsNoop(s[1..], gone);
    }
  }

  /** Every element of `s` goes to exactly one of the two filters. */
  lemma {:induction false} DropKeepSplit<T(!new)>(s: seq<T>, d: seq<T>)
    ensures multiset(DropIds(s, d)) + multiset(KeepIds(s, d)) == multiset(s)
  {
    if s != [] {
      DropKeepSplit(s[1..], d);
      assert s == [s[0]] + s[1..];
    }
  }

  lemma {:induction false} DropIdsDistinct<T(!new)>(s: seq<T>, gone: seq<T>)
    requires Distinct(s)
    ensures Distinct(DropIds(s, gone))
  {
    if s != [] {
      DropIdsDistinct(s[1..], gone);
    }
  }

  lemma {:induction false} KeepIdsDistinct<T(!new)>(s: seq<T>, keep: seq<T>)
    requires Distinct(s)
    ensures Distinct(KeepIds(s, keep))
  {
    if s != [] {
      KeepIdsDistinct(s[1..], keep);
    }
  }

  /** In a duplicate-free sequence every element occurs exactly once. */
  lemma {:induction false} DistinctCount<T(!new)>(s: seq<T>, x: T)
    requires Distinct(s)
    ensures multiset(s)[x] == if x in s then 1 else 0
  {
    if s != [] {
      assert s == [s[0]] + s[1..];
      DistinctCount(s[1..], x);
    }
  }

  /** Two duplicate-free sequences with the same elements are permutations of each other. */
  lemma DistinctSameElements<T(!new)>(a: seq<T>, b: seq<T>)
    requires Distinct(a) && Distinct(b)
    requires forall x :: x in a <==> x in b
    ensures multiset(a) == multiset(b)
  {
    forall x ensures multiset(a)[x] == multiset(b)[x] {
      DistinctCount(a, x);
      DistinctCount(b, x);
    }
  }

  /** A permutation of a duplicate-free sequence is duplicate-free. */
  lemma PermutationDistinct<T(!new)>(a: seq<T>, b: seq<T>)
    requires Distinct(b) && multiset(a) == multiset(b)
    ensures Distinct(a)
  {
    forall i, j | 0 <= i < j < |a| ensures a[i] != a[j] {
      if a[i] == a[j] {
        assert a == a[..i] + [a[i]] + a[i + 1..j] + [a[j]] + a[j + 1..];
        assert multiset(a)[a[i]] >= 2;
        DistinctCount(b, a[i]);
        assert false;
      }
    }
  }

  /** Set.add keeps the elements present and appends a new one at the end. */
  lemma {:induction false} AddAllMembers<T>(s: seq<T>, xs: seq<T>)
    ensures forall x :: x in AddAll(s, xs) <==> x in s || x in xs
    ensures |s| <= |AddAll(s, xs)| && AddAll(s, xs)[..|s|] == s
  {
    if xs != [] {
      AddAllMembers(s, xs[..|xs| - 1]);
      assert xs == xs[..|xs| - 1] + [xs[|xs| - 1]];
      var prev := AddAll(s, xs[..|xs| - 1]);
      if xs[|xs| - 1] !in prev {
        assert (prev + [xs[|xs| - 1]])[..|s|] == prev[..|s|];
      }
    }
  }

  /** Adding to a duplicate-free sequence keeps it duplicate-free. */
  lemma {:induction false} AddAllDistinct<T>(s: seq<T>, xs: seq<T>)
    requires Distinct(s)
    ensures Distinct(AddAll(s, xs))
  {
    if xs != [] {
      AddAllDistinct(s, xs[..|xs| - 1]);
    }
  }

  /** Adding fresh, duplicate-free elements to the empty set yields them in order. */
  lemma {:induction false} AddAllFresh<T>(xs: seq<T>)
    requires Distinct(xs)
    ensures AddAll([], xs) == xs
  {
    if xs != [] {
      var init := xs[..|xs| - 1];
      AddAllFresh(init);
      assert xs[|xs| - 1] !in init;
      assert init + [xs[|xs| - 1]] == xs;
    }
  }
}
