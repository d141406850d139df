/** The list side of a drag-reorder in drag-controller.js: the container's
    children (song rows and at most one drop indicator), moving the indicator
    next to a row, reading the new id order back out of the children, and
    applying that order to the library. */
module DragOrder {
  import opened Base
  import opened Catalog
  import opened QueueIndex

  /** A child element of the list container. */
  datatype Child = Row(id: SongId) | Indicator

  /** The ids of the rows, in document order (`querySelectorAll('.song-row')`). */
  function RowIds(cs: seq<Child>): (r: seq<SongId>)
    ensures |r| <= |cs|
  {
    if cs == [] then []
    else if cs[0].Row? then [cs[0].id] + RowIds(cs[1..])
    else RowIds(cs[1..])
  }

  /** The container as rendered from a list of ids: one row each, no indicator. */
  function RowsOf(ids: seq<SongId>): (cs: seq<Child>)
    ensures |cs| == |ids|
    ensures forall i :: 0 <= i < |ids| ==> cs[i] == Row(ids[i])
  {
    seq(|ids|, i requires 0 <= i < |ids| => Row(ids[i]))
  }

  function IndicatorCount(cs: seq<Child>): nat
  {
    multiset(cs)[Indicator]
  }

  /** What one child contributes to `newIdList`: the indicator stands for the
      whole dragged block, a row for its own id unless that id is dragged. */
  function Emit(c: Child, dragged: seq<SongId>): (r: seq<SongId>)
    ensures c.Row? ==> |r| <= 1
    ensures forall x :: x in r ==> (x in dragged <==> c.Indicator?)
  {
    if c.Indicator? then dragged
    else if c.id in dragged then []
    else [c.id]
  }

  /** `newIdList` as the collection loop of `executeReorder` builds it. */
  function NewOrder(cs: seq<Child>, dragged: seq<SongId>): (r: seq<SongId>)
    ensures Indicator !in cs ==> |r| <= |cs|
  {
    if cs == [] then []
    else
      var init := cs[..|cs| - 1];
      assert cs == init + [cs[|cs| - 1]];
      NewOrder(init, dragged) + Emit(cs[|cs| - 1], dragged)
  }

  /** Every id of the new order that is not dragged comes from a row of the
      container, and without an indicator no dragged id comes out at all. */
  lemma {:induction false} NewOrderSources(cs: seq<Child>, dragged: seq<SongId>)
    ensures forall x :: x in NewOrder(cs, dragged) && x !in dragged ==> Row(x) in cs
    ensures IndicatorCount(cs) == 0 ==> forall x :: x in NewOrder(cs, dragged) ==> x !in dragged
  {
    if cs != [] {
      var init := cs[..|cs| - 1];
      var last := cs[|cs| - 1];
      NewOrderSources(init, dragged);
      assert cs == init + [last];
      assert multiset(cs) == multiset(init) + multiset{last};
      assert NewOrder(cs, dragged) == NewOrder(init, dragged) + Emit(last, dragged);
    }
  }

  /** The collection loop itself, pushing child by child. */
  method CollectNewOrder(cs: seq<Child>, dragged: seq<SongId>) returns (newIdList: seq<SongId>)
    ensures newIdList == NewOrder(cs, dragged)
  {
    newIdList := [];
    for i := 0 to |cs|
      invariant newIdList == NewOrder(cs[..i], dragged)
    {
      assert cs[..i + 1][..i] == cs[..i];
      if cs[i].Indicator? {
        newIdList := newIdList + dragged;
      }
      if cs[i].Row? {
        if cs[i].id !in dragged {
          newIdList := newIdList + [cs[i].id];
        }
      }
    }
    assert cs[..|cs|] == cs;
  }

  lemma {:induction false} RowIdsConcat(a: seq<Child>, b: seq<Child>)
    ensures RowIds(a + b) == RowIds(a) + RowIds(b)
  {
    if a == [] {
      assert a + b == b;
    } else {
      assert (a + b)[0] == a[0];
      assert (a + b)[1..] == a[1..] + b;
      RowIdsConcat(a[1..], b);
    }
  }

  lemma {:induction false} NewOrderConcat(a: seq<Child>, b: seq<Child>, dragged: seq<SongId>)
    ensures NewOrder(a + b, dragged) == NewOrder(a, dragged) + NewOrder(b, dragged)
    decreases |b|
  {
    if b == [] {
      assert a + b == a;
    } else {
      var init := b[..|b| - 1];
      var last := b[|b| - 1];
      assert NewOrder(a + b, dragged) == NewOrder(a + init, dragged) + Emit(last, dragged) by {
        assert a + b == (a + init) + [last];
        NewOrderSnoc(a + b, a + init, last, dragged);
      }
      assert NewOrder(b, dragged) == NewOrder(init, dragged) + Emit(last, dragged) by {
        assert b == init + [last];
        NewOrderSnoc(b, init, last, dragged);
      }
      NewOrderConcat(a, init, dragged);
      Regroup(NewOrder(a + b, dragged), NewOrder(a + init, dragged), Emit(last, dragged),
        NewOrder(a, dragged), NewOrder(init, dragged), NewOrder(b, dragged));
    }
  }

  lemma Regroup<T>(whole: seq<T>, front: seq<T>, tail: seq<T>, x: seq<T>, mid: seq<T>, y: seq<T>)
    requires whole == front + tail && front == x + mid && y == mid + tail
    ensures whole == x + y
  {
  }

  /** Appending one child appends what it contributes. */
  lemma NewOrderSnoc(whole: seq<Child>, cs: seq<Child>, c: Child, dragged: seq<SongId>)
    requires whole == cs + [c]
    ensures NewOrder(whole, dragged) == NewOrder(cs, dragged) + Emit(c, dragged)
  {
    assert whole[..|cs|] == cs;
  }

  lemma {:induction false} RowsOfIds(ids: seq<SongId>)
    ensures RowIds(RowsOf(ids)) == ids
    ensures IndicatorCount(RowsOf(ids)) == 0
  {
    if ids != [] {
      RowsOfIds(ids[1..]);
      assert RowsOf(ids)[1..] == RowsOf(ids[1..]);
      assert RowsOf(ids) == [Row(ids[0])] + RowsOf(ids[1..]);
    }
  }

  /** Appending the indicator (`startDrag`) adds one indicator and no row. */
  lemma AppendIndicator(cs: seq<Child>)
    ensures RowIds(cs + [Indicator]) == RowIds(cs)
    ensures IndicatorCount(cs + [Indicator]) == IndicatorCount(cs) + 1
  {
    RowIdsConcat(cs, [Indicator]);
    assert RowIds([Indicator]) == [] by {
      assert [Indicator][1..] == [];
    }
    assert multiset(cs + [Indicator]) == multiset(cs) + multiset{Indicator};
  }

  /** Without an indicator the children give the rows that are not dragged, in order. */
  lemma {:induction false} NewOrderNoIndicator(cs: seq<Child>, dragged: seq<SongId>)
    requires IndicatorCount(cs) == 0
    ensures NewOrder(cs, dragged) == DropIds(RowIds(cs), dragged)
    decreases |cs|
  {
    if cs != [] {
      var init := cs[..|cs| - 1];
      var last := cs[|cs| - 1];
      assert cs == init + [last];
      assert multiset(cs) == multiset(init) + multiset{last};
      assert last.Row?;
      NewOrderNoIndicator(init, dragged);
      assert NewOrder(cs, dragged) == NewOrder(init, dragged) + Emit(last, dragged);
      RowIdsConcat(init, [last]);
      OneRow(last.id);
      DropIdsConcat(RowIds(init), [last.id], dragged);
      DropOne(last.id, dragged);
    }
  }

  lemma DropOne(x: SongId, gone: seq<SongId>)
    ensures DropIds([x], gone) == if x in gone then [] else [x]
  {
    assert [x][1..] == [];
  }

  lemma OneRow(id: SongId)
    ensures RowIds([Row(id)]) == [id]
  {
    assert [Row(id)][1..] == [];
  }

  /** With the indicator between `before` and `after`, the new order is the
      undragged rows before it, then the dragged ids as one block in dragged
      order, then the undragged rows after it. */
  lemma DragBlock(before: seq<Child>, after: seq<Child>, dragged: seq<SongId>)
    requires IndicatorCount(before) == 0 && IndicatorCount(after) == 0
    ensures NewOrder(before + [Indicator] + after, dragged) ==
      DropIds(RowIds(before), dragged) + dragged + DropIds(RowIds(after), dragged)
  {
    NewOrderConcat(before + [Indicator], after, dragged);
    NewOrderConcat(before, [Indicator], dragged);
    NewOrderNoIndicator(before, dragged);
    NewOrderNoIndicator(after, dragged);
    assert [Indicator][..0] == [];
  }

  /** Leaving the dragged ids aside, the new order is the old row order:
      the rows that were not dragged keep their relative order. */
  lemma {:induction false} NewOrderKeepsOthers(cs: seq<Child>, dragged: seq<SongId>)
    ensures DropIds(NewOrder(cs, dragged), dragged) == DropIds(RowIds(cs), dragged)
    decreases |cs|
  {
    if cs != [] {
      var init := cs[..|cs| - 1];
      var last := cs[|cs| - 1];
      assert cs == init + [last];
      NewOrderKeepsOthers(init, dragged);
      RowIdsConcat(init, [last]);
      assert [last][1..] == [];
      DropIdsConcat(NewOrder(init, dragged), Emit(last, dragged), dragged);
      DropIdsConcat(RowIds(init), RowIds([last]), dragged);
      if last.Indicator? {
        DropAllOf(dragged);
      }
    }
  }

  lemma DropAllOf(d: seq<SongId>)
    ensures DropIds(d, d) == []
  {
    DropIdsAll(d, d);
  }

  lemma {:induction false} DropIdsAll(s: seq<SongId>, gone: seq<SongId>)
    requires forall x :: x in s ==> x in gone
    ensures DropIds(s, gone) == []
  {
    if s != [] {
      DropIdsAll(s[1..], gone);
    }
  }

  /** Splitting the children at their only indicator. */
  lemma IndicatorSplit(cs: seq<Child>, k: nat)
    requires IndicatorCount(cs) == 1 && k < |cs| && cs[k] == Indicator
    ensures cs == cs[..k] + [Indicator] + cs[k + 1..]
    ensures IndicatorCount(cs[..k]) == 0 && IndicatorCount(cs[k + 1..]) == 0
    ensures RowIds(cs) == RowIds(cs[..k]) + RowIds(cs[k + 1..])
  {
    var before, after := cs[..k], cs[k + 1..];
    assert cs == before + [Indicator] + after;
    CountSplit(before, after);
    RowIdsAround(before, after);
  }

  lemma CountSplit(before: seq<Child>, after: seq<Child>)
    requires IndicatorCount(before + [Indicator] + after) == 1
    ensures IndicatorCount(before) == 0 && IndicatorCount(after) == 0
  {
    assert multiset(before + [Indicator] + after) == multiset(before) + multiset{Indicator} + multiset(after);
  }

  lemma RowIdsAround(before: seq<Child>, after: seq<Child>)
    ensures RowIds(before + [Indicator] + after) == RowIds(before) + RowIds(after)
  {
    RowIdsConcat(before + [Indicator], after);
    RowIdsConcat(before, [Indicator]);
    assert RowIds([Indicator]) == RowIds([Indicator][1..]);
    assert [Indicator][1..] == [];
  }

  /** Taking the dragged ids out of a duplicate-free list and putting them
      back as one block anywhere yields a permutation of the list. */
  lemma BlockPermutation(rb: seq<SongId>, ra: seq<SongId>, dragged: seq<SongId>)
    requires Distinct(rb + ra) && Distinct(dragged)
    requires forall x :: x in dragged ==> x in rb + ra
    ensures multiset(DropIds(rb, dragged) + dragged + DropIds(ra, dragged)) == multiset(rb + ra)
  {
    var rows := rb + ra;
    DropIdsConcat(rb, ra, dragged);
    DropKeepSplit(rows, dragged);
    KeepIdsDistinct(rows, dragged);
    DistinctSameElements(KeepIds(rows, dragged), dragged);
  }

  /** With exactly one indicator, unique row ids, and a dragged list of unique
      ids that are all rows, the new order is a permutation of the row ids. */
  lemma NewOrderPermutation(cs: seq<Child>, dragged: seq<SongId>)
    requires IndicatorCount(cs) == 1
    requires Distinct(RowIds(cs)) && Distinct(dragged)
    requires forall x :: x in dragged ==> x in RowIds(cs)
    ensures multiset(NewOrder(cs, dragged)) == multiset(RowIds(cs))
  {
    var k := IndicatorIndex(cs);
    IndicatorSplit(cs, k);
    DragBlock(cs[..k], cs[k + 1..], dragged);
    BlockPermutation(RowIds(cs[..k]), RowIds(cs[k + 1..]), dragged);
  }

  /** The position of an indicator in the children. */
  ghost function IndicatorIndex(cs: seq<Child>): (k: nat)
    requires IndicatorCount(cs) >= 1
    ensures k < |cs| && cs[k] == Indicator
  {
    assert Indicator in multiset(cs);
    var k :| 0 <= k < |cs| && cs[k] == Indicator;
    k
  }

  /** `targetRow.before(indicator)` / `targetRow.after(indicator)` on the
      `k`-th row: the indicator leaves its old place and lands right before or
      right after that row. */
  function MoveIndicator(cs: seq<Child>, k: nat, after: bool): (r: seq<Child>)
    requires k < |RowIds(cs)|
    ensures RowIds(r) == RowIds(cs)
    ensures IndicatorCount(r) == 1
    ensures var j := if after then k + 1 else k;
      r == RowsOf(RowIds(cs)[..j]) + [Indicator] + RowsOf(RowIds(cs)[j..])
  {
    var ids := RowIds(cs);
    var j := if after then k + 1 else k;
    var front := RowsOf(ids[..j]);
    var back := RowsOf(ids[j..]);
    RowsOfIds(ids[..j]);
    RowsOfIds(ids[j..]);
    AppendIndicator(front);
    RowIdsConcat(front + [Indicator], back);
    assert multiset(front + [Indicator] + back) == multiset(front + [Indicator]) + multiset(back);
    assert ids[..j] + ids[j..] == ids;
    front + [Indicator] + back
  }

  /** Dropping at the indicator after a move: the dragged block goes in just
      before or just after the target row, among the rows that stay. */
  lemma DropAtRow(cs: seq<Child>, k: nat, after: bool, dragged: seq<SongId>)
    requires k < |RowIds(cs)|
    ensures var ids := RowIds(cs);
      var j := if after then k + 1 else k;
      NewOrder(MoveIndicator(cs, k, after), dragged) ==
        DropIds(ids[..j], dragged) + dragged + DropIds(ids[j..], dragged)
  {
    var ids := RowIds(cs);
    var j := if after then k + 1 else k;
    RowsOfIds(ids[..j]);
    RowsOfIds(ids[j..]);
    DragBlock(RowsOf(ids[..j]), RowsOf(ids[j..]), dragged);
  }

  /** The library push loop of `executeReorder`: the tracks of `newIdList`
      that the library map knows, in that order. */
  method RebuildLibrary(newIdList: seq<SongId>, library: seq<Song>) returns (newLibrary: seq<Song>)
    ensures newLibrary == Materialise(newIdList, library)
  {
    var libMap := LibMap(library);
    newLibrary := [];
    for i := 0 to |newIdList|
      invariant newLibrary + Materialise(newIdList[i..], library) == Materialise(newIdList, library)
    {
      assert newIdList[i..] == [newIdList[i]] + newIdList[i + 1..];
      if newIdList[i] in libMap {
        newLibrary := newLibrary + [libMap[newIdList[i]]];
      }
    }
  }

  /** Reordering the rendered library through the indicator loses, doubles and
      invents no track: the new library is a permutation of the old. */
  lemma LibraryReorderPermutation(cs: seq<Child>, dragged: seq<SongId>, library: seq<Song>)
    requires RowIds(cs) == Ids(library) && Distinct(Ids(library))
    requires IndicatorCount(cs) == 1 && Distinct(dragged)
    requires forall x :: x in dragged ==> x in Ids(library)
    ensures multiset(Materialise(NewOrder(cs, dragged), library)) == multiset(library)
  {
    NewOrderPermutation(cs, dragged);
    MaterialisePermutation(NewOrder(cs, dragged), library);
  }

  /** In a library with unique ids a track is determined by its id. */
  lemma SameIdSameSong(library: seq<Song>, s: Song, t: Song)
    requires Distinct(Ids(library)) && s in library && t in library && s.id == t.id
    ensures s == t
  {
    var i :| 0 <= i < |library| && library[i] == s;
    var j :| 0 <= j < |library| && library[j] == t;
    assert Ids(library)[i] == Ids(library)[j];
  }

  /** When the queue is the library, the track that was playing before a
      reorder is exactly the track the reconciled current index names afterwards. */
  lemma LibraryReorderKeepsNowPlaying(cs: seq<Child>, dragged: seq<SongId>, library: seq<Song>, i: int)
    requires RowIds(cs) == Ids(library) && Distinct(Ids(library))
    requires IndicatorCount(cs) == 1 && Distinct(dragged)
    requires forall x :: x in dragged ==> x in Ids(library)
    requires 0 <= i < |library|
    ensures var newLibrary := Materialise(NewOrder(cs, dragged), library);
      var k := ReconcileIndex(newLibrary, Some(library[i]));
      0 <= k < |newLibrary| && newLibrary[k] == library[i]
  {
    var newLibrary := Materialise(NewOrder(cs, dragged), library);
    LibraryReorderPermutation(cs, dragged, library);
    assert library[i] in multiset(newLibrary);
    var j :| 0 <= j < |newLibrary| && newLibrary[j] == library[i];
    assert Ids(newLibrary)[j] == library[i].id;
    var k := ReconcileIndex(newLibrary, Some(library[i]));
    assert newLibrary[k] in multiset(library);
    SameIdSameSong(library, newLibrary[k], library[i]);
  }

  /** Dragging the last of three rows above the first gives third, first, second. */
  lemma ThreeRowOrder(a: SongId, b: SongId, c: SongId)
    requires Distinct([a, b, c])
    ensures NewOrder([Indicator, Row(a), Row(b), Row(c)], [c]) == [c, a, b]
  {
    var cs := [Indicator, Row(a), Row(b), Row(c)];
    assert a != c && b != c by {
      assert [a, b, c][0] != [a, b, c][2] && [a, b, c][1] != [a, b, c][2];
    }
    assert cs[..3] == [Indicator, Row(a), Row(b)];
    assert cs[..3][..2] == [Indicator, Row(a)];
    assert cs[..3][..2][..1] == [Indicator];
    assert [Indicator][..0] == [];
    assert NewOrder([Indicator], [c]) == [c];
    assert NewOrder([Indicator, Row(a)], [c]) == [c, a];
    assert NewOrder([Indicator, Row(a), Row(b)], [c]) == [c, a, b];
  }

  /** Ids of tracks that are all in a library with unique ids materialise
      to exactly those tracks. */
  lemma {:induction false} MaterialiseKnown(lib: seq<Song>, songs: seq<Song>)
    requires Distinct(Ids(lib)) && forall s :: s in songs ==> s in lib
    ensures Materialise(Ids(songs), lib) == songs
  {
    if songs != [] {
      LibMapFindsTrack(lib, songs[0]);
      assert Ids(songs)[1..] == Ids(songs[1..]);
      MaterialiseKnown(lib, songs[1..]);
      assert songs == [songs[0]] + songs[1..];
    }
  }

  /** The same drag applied to a three-track library. */
  lemma ThreeRowExample(t1: Song, t2: Song, t3: Song)
    requires Distinct([t1.id, t2.id, t3.id])
    ensures Materialise(NewOrder([Indicator, Row(t1.id), Row(t2.id), Row(t3.id)], [t3.id]), [t1, t2, t3]) == [t3, t1, t2]
  {
    ThreeRowOrder(t1.id, t2.id, t3.id);
    ThreeTracksRotated(t1, t2, t3);
  }

  lemma ThreeTracksRotated(t1: Song, t2: Song, t3: Song)
    requires Distinct([t1.id, t2.id, t3.id])
    ensures Materialise([t3.id, t1.id, t2.id], [t1, t2, t3]) == [t3, t1, t2]
  {
    var lib := [t1, t2, t3];
    assert Ids(lib) == [t1.id, t2.id, t3.id];
    assert t3 in lib && t1 in lib && t2 in lib;
    MaterialiseKnown(lib, [t3, t1, t2]);
    assert Ids([t3, t1, t2]) == [t3.id, t1.id, t2.id];
  }
}
