/** The multi-selection of script.js (`selectedSongs`, `lastSelectedSongId`):
    what a plain, ctrl- or shift-click, a right-click and a view switch do to
    it. The selection is an insertion-ordered set of ids, kept here as a
    duplicate-free sequence because its order becomes the order of a dragged
    block. */
module Selection {
  import opened Base

  /** The selection after a click: the selected ids and the shift anchor. */
  datatype Picked = Picked(selected: seq<SongId>, anchor: Option<SongId>)

  /** `if (app.lastSelectedSongId)`: null and the empty string are falsy. */
  predicate HasAnchor(anchor: Option<SongId>)
  {
    anchor.Some? && anchor.value != ""
  }

  function Min(a: int, b: int): int { if a <= b then a else b }
  function Max(a: int, b: int): int { if a <= b then b else a }

  /** The ids of `list[min(i, j)..max(i, j)]`, both ends included. */
  function RangeIds(list: seq<Song>, i: int, j: int): (r: seq<SongId>)
    requires 0 <= i < |list| && 0 <= j < |list|
    ensures |r| == Max(i, j) - Min(i, j) + 1
    ensures forall k :: 0 <= k < |r| ==> r[k] == list[Min(i, j) + k].id
  {
    Ids(list)[Min(i, j)..Max(i, j) + 1]
  }

  /** `handleSongClick(e, song, songList)` as a function of the selection it
      starts from. A selection without duplicates stays without duplicates,
      and the anchor either stays or moves to the clicked id. */
  function ClickOutcome(sel: seq<SongId>, anchor: Option<SongId>, ctrl: bool, shift: bool,
                        id: SongId, list: seq<Song>): (r: Picked)
    ensures Distinct(sel) ==> Distinct(r.selected)
    ensures r.anchor == anchor || r.anchor == Some(id)
  {
    if ctrl then
      if id in sel then
        DropIdsFrom(sel, id);
        Picked(DropIds(sel, [id]), anchor)
      else
        AppendFresh(sel, id);
        Picked(sel + [id], Some(id))
    else if shift && HasAnchor(anchor) then
      var a := IndexOfId(list, anchor.value);
      var c := IndexOfId(list, id);
      if a != -1 && c != -1 then
        AddAllDistinct([], RangeIds(list, a, c));
        Picked(AddAll([], RangeIds(list, a, c)), anchor)
      else Picked(sel, anchor)
    else Picked([id], Some(id))
  }

  lemma DropIdsFrom(sel: seq<SongId>, id: SongId)
    ensures Distinct(sel) ==> Distinct(DropIds(sel, [id]))
  {
    if Distinct(sel) {
      DropIdsDistinct(sel, [id]);
    }
  }

  lemma AppendFresh(sel: seq<SongId>, id: SongId)
    ensures Distinct(sel) && id !in sel ==> Distinct(sel + [id])
  {
  }

  /** A ctrl-click toggles the clicked id and leaves every other id as it was;
      it moves the anchor only when it adds. Holding shift as well makes no
      difference. */
  lemma CtrlClickToggles(sel: seq<SongId>, anchor: Option<SongId>, shift: bool, id: SongId, list: seq<Song>)
    requires Distinct(sel)
    ensures var r := ClickOutcome(sel, anchor, true, shift, id, list);
      (id in r.selected <==> id !in sel) &&
      (forall x :: x != id ==> (x in r.selected <==> x in sel)) &&
      r.anchor == (if id in sel then anchor else Some(id)) &&
      Distinct(r.selected) &&
      r == ClickOutcome(sel, anchor, true, !shift, id, list)
  {
    if id in sel {
      DropIdsDistinct(sel, [id]);
    }
  }

  /** A click without modifiers, or a shift-click with no anchor yet, selects
      exactly the clicked id and anchors there. */
  lemma PlainClickSelectsOne(sel: seq<SongId>, anchor: Option<SongId>, shift: bool, id: SongId, list: seq<Song>)
    requires !shift || !HasAnchor(anchor)
    ensures var r := ClickOutcome(sel, anchor, false, shift, id, list);
      r.selected == [id] && r.anchor == Some(id) && Distinct(r.selected)
  {
  }

  /** Some row of `list[lo..hi]`, both ends included, carries `x`. */
  predicate InRows(list: seq<Song>, lo: int, hi: int, x: SongId)
  {
    exists k :: lo <= k <= hi && 0 <= k < |list| && list[k].id == x
  }

  lemma RangeSelection(list: seq<Song>, a: int, c: int)
    requires 0 <= a < |list| && 0 <= c < |list|
    ensures var r := AddAll([], RangeIds(list, a, c));
      Distinct(r) && forall x :: x in r <==> InRows(list, Min(a, c), Max(a, c), x)
  {
    var range := RangeIds(list, a, c);
    AddAllMembers([], range);
    AddAllDistinct([], range);
    forall x ensures x in range <==> InRows(list, Min(a, c), Max(a, c), x) {
      if x in range {
        var j :| 0 <= j < |range| && range[j] == x;
        assert list[Min(a, c) + j].id == x;
      }
      if InRows(list, Min(a, c), Max(a, c), x) {
        var k :| Min(a, c) <= k <= Max(a, c) && 0 <= k < |list| && list[k].id == x;
        assert range[k - Min(a, c)] == x;
      }
    }
  }

  /** A shift-click from an anchor selects exactly the rows between the anchor
      and the clicked row, inclusive, without duplicates, and keeps the anchor;
      when either id is not in the list the selection is left alone. */
  lemma ShiftClickRange(sel: seq<SongId>, anchor: Option<SongId>, id: SongId, list: seq<Song>)
    requires HasAnchor(anchor) && Distinct(sel)
    ensures var r := ClickOutcome(sel, anchor, false, true, id, list);
      var a := IndexOfId(list, anchor.value);
      var c := IndexOfId(list, id);
      r.anchor == anchor && Distinct(r.selected) &&
      (a != -1 && c != -1 ==>
        (forall x :: x in r.selected <==> InRows(list, Min(a, c), Max(a, c), x)) &&
        id in r.selected && anchor.value in r.selected) &&
      (a == -1 || c == -1 ==> r.selected == sel)
  {
    var a := IndexOfId(list, anchor.value);
    var c := IndexOfId(list, id);
    if a != -1 && c != -1 {
      RangeSelection(list, a, c);
      assert InRows(list, Min(a, c), Max(a, c), id) by { assert list[c].id == id; }
      assert InRows(list, Min(a, c), Max(a, c), anchor.value) by { assert list[a].id == anchor.value; }
    }
  }

  /** With unique ids in the list, a shift-click on row `j` with the anchor on
      row `i` selects exactly the rows from the smaller to the larger of the
      two, in list order. */
  lemma ShiftClickSlice(sel: seq<SongId>, list: seq<Song>, i: int, j: int)
    requires Distinct(Ids(list)) && 0 <= i < |list| && 0 <= j < |list| && list[i].id != ""
    ensures ClickOutcome(sel, Some(list[i].id), false, true, list[j].id, list).selected ==
      Ids(list)[Min(i, j)..Max(i, j) + 1]
  {
    IndexOfIdDistinct(list, i);
    IndexOfIdDistinct(list, j);
    ShiftOutcome(sel, Some(list[i].id), list[j].id, list);
    RangeSelectionFresh(list, i, j);
  }

  /** With unique ids, the range added to an empty selection is the slice itself. */
  lemma RangeSelectionFresh(list: seq<Song>, a: int, c: int)
    requires Distinct(Ids(list)) && 0 <= a < |list| && 0 <= c < |list|
    ensures AddAll([], RangeIds(list, a, c)) == Ids(list)[Min(a, c)..Max(a, c) + 1]
  {
    SliceSelection(Ids(list), Min(a, c), Max(a, c) + 1);
  }

  /** Adding a slice of distinct ids to an empty selection gives the slice. */
  lemma SliceSelection(ids: seq<SongId>, lo: int, hi: int)
    requires Distinct(ids) && 0 <= lo <= hi <= |ids|
    ensures AddAll([], ids[lo..hi]) == ids[lo..hi]
  {
    SliceDistinct(ids, lo, hi);
    AddAllFresh(ids[lo..hi]);
  }

  /** The shift branch when both ids are in the list. */
  lemma ShiftOutcome(sel: seq<SongId>, anchor: Option<SongId>, id: SongId, list: seq<Song>)
    requires HasAnchor(anchor) && IndexOfId(list, anchor.value) != -1 && IndexOfId(list, id) != -1
    ensures ClickOutcome(sel, anchor, false, true, id, list) ==
      Picked(AddAll([], RangeIds(list, IndexOfId(list, anchor.value), IndexOfId(list, id))), anchor)
  {
  }

  lemma SliceDistinct<T>(s: seq<T>, lo: int, hi: int)
    requires Distinct(s) && 0 <= lo <= hi <= |s|
    ensures Distinct(s[lo..hi])
  {
    var t := s[lo..hi];
    forall i, j | 0 <= i < j < |t| ensures t[i] != t[j] {
      assert t[i] == s[lo + i] && t[j] == s[lo + j];
    }
  }

  /** The example of a five-row list: anchor on the second row, shift-click on the fourth. */
  lemma ShiftClickExample(a: Song, b: Song, c: Song, d: Song, e: Song, sel: seq<SongId>)
    requires Distinct([a.id, b.id, c.id, d.id, e.id]) && b.id != ""
    ensures ClickOutcome(sel, Some(b.id), false, true, d.id, [a, b, c, d, e]).selected == [b.id, c.id, d.id]
  {
    var list := [a, b, c, d, e];
    assert Ids(list) == [a.id, b.id, c.id, d.id, e.id];
    ShiftClickSlice(sel, list, 1, 3);
    assert Ids(list)[1..4] == [b.id, c.id, d.id];
  }
}
