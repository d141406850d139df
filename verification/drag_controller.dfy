/** The `DragController` class of drag-controller.js: a press on a song row
    arms a drag, a move past five pixels starts it, moves and auto-scroll
    frames keep the drop indicator next to the nearest row, and release
    commits the new order to the library or the open playlist (Escape
    cancels). The container's child elements are modelled as a sequence of
    rows and the indicator; geometry arrives with each event. */
module DragControl {
  import opened Base
  import opened Catalog
  import opened QueueIndex
  import opened DragGeometry
  import opened DragOrder
  import opened Player

  /** `this.view`. */
  datatype View = NoView | LibraryView | PlaylistView

  datatype Point = Point(x: int, y: int)

  /** What the browser reports at an event: the scrolling view's top and
      bottom, the container's box, each row's box in document order, and the
      window height. */
  datatype Layout = Layout(viewTop: int, viewBottom: int, box: Box, rows: seq<Rect>, viewportHeight: int)

  /** `dragThreshold`, in pixels. */
  const DragThreshold: int := 5

  /** `Math.sqrt(dx * dx + dy * dy) > dragThreshold`, squared on both sides:
      a move of more than five pixels along either axis always starts a
      drag, and one of at most three pixels along both never does. */
  predicate PastThreshold(dx: int, dy: int)
    ensures dx < -DragThreshold || dx > DragThreshold || dy < -DragThreshold || dy > DragThreshold ==>
      PastThreshold(dx, dy)
    ensures -3 <= dx <= 3 && -3 <= dy <= 3 ==> !PastThreshold(dx, dy)
  {
    dx * dx + dy * dy > DragThreshold * DragThreshold
  }

  class DragController {
    var isDragging: bool
    /** Whether the document mousemove and mouseup listeners are installed. */
    var listening: bool
    var startX: int
    var startY: int
    /** `lastX`/`lastY`: undefined until the first drag, never reset. */
    var last: Option<Point>
    var draggedSongIds: seq<SongId>
    var targetIndex: int
    var view: View
    /** The children of `this.container`. */
    var children: seq<Child>
    var hasScrollParent: bool
    var scrollSpeed: real
    /** Whether an animation frame for `scrollLoop` is requested. */
    var scrollLoopActive: bool
    /** `scrollParent.scrollTop`. */
    var scrollTop: real

    /** The drop indicator exists exactly while dragging, and only once. */
    predicate Valid()
      reads this
    {
      (isDragging ==> IndicatorCount(children) == 1) &&
      (!isDragging ==> IndicatorCount(children) == 0) &&
      Distinct(draggedSongIds)
    }

    constructor ()
      ensures Valid()
      ensures !isDragging && !listening && draggedSongIds == [] && targetIndex == -1
      ensures view == NoView && children == [] && last == None
      ensures !hasScrollParent && scrollSpeed == 0.0 && !scrollLoopActive
    {
      isDragging := false;
      listening := false;
      startX := 0;
      startY := 0;
      last := None;
      draggedSongIds := [];
      targetIndex := -1;
      view := NoView;
      children := [];
      hasScrollParent := false;
      scrollSpeed := 0.0;
      scrollLoopActive := false;
      scrollTop := 0.0;
    }

    /** `onMouseDown(e)`: only a left press on a row of the library list or of
        a playlist that is not an album arms a drag. The dragged ids are the
        whole selection in its order when the pressed row is selected, and
        that row alone otherwise. A left press cannot arrive while the left
        button is already held for a drag. */
    method OnMouseDown(button: int, rowId: Option<SongId>, inLibraryList: bool, inPlaylistList: bool,
                       typeLabel: string, x: int, y: int, rendered: seq<SongId>, app: App)
      requires Valid() && app.Valid() && (button == 0 ==> !isDragging)
      modifies this`view, this`children, this`startX, this`startY, this`draggedSongIds, this`listening
      ensures Valid()
      ensures var armed := button == 0 && rowId.Some? &&
        (inLibraryList || (inPlaylistList && typeLabel != "Album"));
        (armed ==>
          listening && startX == x && startY == y && children == RowsOf(rendered) &&
          view == (if inLibraryList then LibraryView else PlaylistView) &&
          draggedSongIds == (if rowId.value in app.selected then app.selected else [rowId.value])) &&
        (!armed ==>
          listening == old(listening) && draggedSongIds == old(draggedSongIds) && children == old(children) &&
          view == old(view) && startX == old(startX) && startY == old(startY))
    {
      if button != 0 {
        return;
      }
      if rowId.None? {
        return;
      }
      if inLibraryList {
        view := LibraryView;
        children := RowsOf(rendered);
      } else if inPlaylistList {
        if typeLabel == "Album" {
          return;
        }
        view := PlaylistView;
        children := RowsOf(rendered);
      } else {
        return;
      }
      RowsOfIds(rendered);
      startX := x;
      startY := y;
      var songId := rowId.value;
      if songId in app.selected {
        draggedSongIds := app.selected;
      } else {
        draggedSongIds := [songId];
      }
      listening := true;
    }

    /** `onMouseMove(e)`: past the threshold an armed press becomes a drag;
        while dragging, every move updates the drag. */
    method OnMouseMove(x: int, y: int, layout: Layout, app: App)
      requires Valid() && app.Valid()
      requires |layout.rows| == |RowIds(children)|
      modifies this`isDragging, this`children, this`last, this`hasScrollParent, this`scrollLoopActive,
        this`scrollSpeed, this`targetIndex, app`selected
      ensures Valid() && app.Valid()
      ensures RowIds(children) == old(RowIds(children))
      ensures !old(listening) ==>
        isDragging == old(isDragging) && children == old(children) && targetIndex == old(targetIndex) &&
        last == old(last) && scrollSpeed == old(scrollSpeed) && app.selected == old(app.selected) &&
        hasScrollParent == old(hasScrollParent) && scrollLoopActive == old(scrollLoopActive)
      ensures old(listening) && !old(isDragging) ==> isDragging == PastThreshold(x - old(startX), y - old(startY))
      ensures old(listening) && !old(isDragging) && !isDragging ==>
        children == old(children) && targetIndex == old(targetIndex) && app.selected == old(app.selected) &&
        last == old(last) && scrollSpeed == old(scrollSpeed) &&
        hasScrollParent == old(hasScrollParent) && scrollLoopActive == old(scrollLoopActive)
      ensures old(listening) && !old(isDragging) && isDragging ==>
        hasScrollParent && scrollLoopActive && SelectionOnStart(app.selected, old(app.selected), draggedSongIds) &&
        HitTested(x, y, layout, old(children) + [Indicator], old(targetIndex), children, targetIndex, true)
      ensures old(listening) && old(isDragging) ==>
        isDragging && app.selected == old(app.selected) &&
        HitTested(x, y, layout, old(children), old(targetIndex), children, targetIndex, true)
      ensures old(listening) && isDragging ==>
        last == Some(Point(x, y)) &&
        (hasScrollParent ==> scrollSpeed == AutoScrollSpeed(y, layout.viewTop, layout.viewBottom))
    {
      if !listening {
        return;
      }
      if isDragging {
        UpdateDrag(x, y, layout);
        return;
      }
      var dx := x - startX;
      var dy := y - startY;
      if PastThreshold(dx, dy) {
        BeginDrag(x, y, layout, app);
      }
    }

    /** The first move past the threshold: `startDrag(e)` followed by
        `updateDrag(e)` on the same event. */
    method BeginDrag(x: int, y: int, layout: Layout, app: App)
      requires Valid() && app.Valid() && !isDragging
      requires |layout.rows| == |RowIds(children)|
      modifies this`isDragging, this`children, this`last, this`hasScrollParent, this`scrollLoopActive,
        this`scrollSpeed, this`targetIndex, app`selected
      ensures Valid() && app.Valid()
      ensures RowIds(children) == old(RowIds(children))
      ensures isDragging && hasScrollParent && scrollLoopActive && last == Some(Point(x, y))
      ensures scrollSpeed == AutoScrollSpeed(y, layout.viewTop, layout.viewBottom)
      ensures SelectionOnStart(app.selected, old(app.selected), draggedSongIds)
      ensures HitTested(x, y, layout, old(children) + [Indicator], old(targetIndex), children, targetIndex, true)
    {
      StartDrag(x, y, app);
      UpdateDrag(x, y, layout);
    }

    /** `startDrag(e)`: a single dragged row that is not selected becomes the
        whole selection (the anchor stays); the indicator is appended to the
        container and the auto-scroll loop is requested. */
    method StartDrag(x: int, y: int, app: App)
      requires Valid() && app.Valid() && !isDragging
      modifies this`isDragging, this`children, this`last, this`hasScrollParent, this`scrollLoopActive, app`selected
      ensures Valid() && app.Valid()
      ensures isDragging && hasScrollParent && scrollLoopActive && last == Some(Point(x, y))
      ensures children == old(children) + [Indicator]
      ensures RowIds(children) == old(RowIds(children))
      ensures SelectionOnStart(app.selected, old(app.selected), draggedSongIds)
    {
      isDragging := true;
      if |draggedSongIds| == 1 && draggedSongIds[0] !in app.selected {
        app.selected := [draggedSongIds[0]];
      }
      last := Some(Point(x, y));
      AppendIndicator(children);
      children := children + [Indicator];
      hasScrollParent := true;
      if !scrollLoopActive {
        scrollLoopActive := true;
      }
    }

    /** `updateDrag(e)`: remember the mouse, set the auto-scroll speed from
        its distance to the view's edges, and hit-test. */
    method UpdateDrag(x: int, y: int, layout: Layout)
      requires Valid() && |layout.rows| == |RowIds(children)|
      modifies this`last, this`scrollSpeed, this`children, this`targetIndex
      ensures Valid()
      ensures last == Some(Point(x, y))
      ensures hasScrollParent ==> scrollSpeed == AutoScrollSpeed(y, layout.viewTop, layout.viewBottom)
      ensures !hasScrollParent ==> scrollSpeed == old(scrollSpeed)
      ensures RowIds(children) == old(RowIds(children))
      ensures HitTested(x, y, layout, old(children), old(targetIndex), children, targetIndex, isDragging)
    {
      last := Some(Point(x, y));
      if hasScrollParent {
        scrollSpeed := 0.0;
        scrollSpeed := AutoScrollSpeed(y, layout.viewTop, layout.viewBottom);
      }
      CheckDropTarget(x, y, layout);
    }

    /** `showDropIndicator(row, after)`: a no-op when there is no indicator. */
    method ShowDropIndicator(k: nat, after: bool)
      requires Valid() && k < |RowIds(children)|
      modifies this`children
      ensures Valid()
      ensures isDragging ==> children == MoveIndicator(old(children), k, after)
      ensures !isDragging ==> children == old(children)
      ensures RowIds(children) == old(RowIds(children))
    {
      if isDragging {
        children := MoveIndicator(children, k, after);
      }
    }

    /** `checkDropTarget(x, y)`: refuse a mouse outside the container's
        box; otherwise put the indicator by the nearest on-screen row; with
        no row on screen, fall back to an empty list or to below the last row,
        and otherwise leave everything as it was. */
    method CheckDropTarget(x: int, y: int, layout: Layout)
      requires Valid() && |layout.rows| == |RowIds(children)|
      modifies this`children, this`targetIndex
      ensures Valid()
      ensures RowIds(children) == old(RowIds(children))
      ensures HitTested(x, y, layout, old(children), old(targetIndex), children, targetIndex, isDragging)
    {
      if Outside(x, y, layout.box) {
        targetIndex := -1;
        return;
      }
      var found, k, after := FindClosest(y, layout.rows, layout.viewportHeight);
      if found {
        PlaceNearest(y, layout, k, after);
      } else {
        PlaceFallback(y, layout);
      }
    }

    /** The hit test found row `k` nearest the mouse. */
    method PlaceNearest(y: int, layout: Layout, k: int, after: bool)
      requires Valid() && |layout.rows| == |RowIds(children)|
      requires IsClosest(y, layout.rows, layout.viewportHeight, k) && (after <==> 2 * y > Mid2(layout.rows[k]))
      modifies this`children, this`targetIndex
      ensures Valid()
      ensures RowIds(children) == old(RowIds(children))
      ensures targetIndex == 1 && PlacedNearest(y, layout, old(children), children, isDragging)
      ensures !isDragging ==> children == old(children)
    {
      ghost var before := children;
      ShowDropIndicator(k, after);
      targetIndex := 1;
      assert isDragging ==> children == MoveIndicator(before, k, 2 * y > Mid2(layout.rows[k]));
    }

    /** No row is on screen: an empty list takes the drop at index 0, a
        mouse below the last row puts the indicator after it, and otherwise
        nothing changes. */
    method PlaceFallback(y: int, layout: Layout)
      requires Valid() && |layout.rows| == |RowIds(children)|
      modifies this`children, this`targetIndex
      ensures Valid()
      ensures RowIds(children) == old(RowIds(children))
      ensures !isDragging ==> children == old(children)
      ensures |layout.rows| == 0 ==> targetIndex == 0 && children == old(children)
      ensures |layout.rows| > 0 ==>
        var lastRow := |layout.rows| - 1;
        if y > Bottom(layout.rows[lastRow]) then
          targetIndex == |layout.rows| && (isDragging ==> children == MoveIndicator(old(children), lastRow, true))
        else
          targetIndex == old(targetIndex) && children == old(children)
    {
      if |layout.rows| == 0 {
        targetIndex := 0;
      } else {
        var lastRow := |layout.rows| - 1;
        if y > Bottom(layout.rows[lastRow]) {
          ShowDropIndicator(lastRow, true);
          targetIndex := |layout.rows|;
        }
      }
    }

    /** One frame of `scrollLoop`: stop when no longer dragging; otherwise
        scroll by the current speed and hit-test again at the last mouse
        position. */
    method ScrollTick(layout: Layout)
      requires Valid() && |layout.rows| == |RowIds(children)|
      modifies this`scrollLoopActive, this`scrollSpeed, this`scrollTop, this`children, this`targetIndex
      ensures Valid()
      ensures RowIds(children) == old(RowIds(children))
      ensures !isDragging ==> !scrollLoopActive && scrollSpeed == 0.0 && scrollTop == old(scrollTop) && children == old(children)
      ensures isDragging ==> scrollLoopActive == old(scrollLoopActive) && scrollSpeed == old(scrollSpeed)
      ensures isDragging && scrollSpeed != 0.0 && hasScrollParent ==> scrollTop == old(scrollTop) + scrollSpeed
      ensures isDragging && scrollSpeed != 0.0 && hasScrollParent && last.Some? ==>
        HitTested(last.value.x, last.value.y, layout, old(children), old(targetIndex), children, targetIndex, isDragging)
      ensures isDragging && scrollSpeed != 0.0 && hasScrollParent && last.None? ==>
        children == old(children) && targetIndex == old(targetIndex)
      ensures isDragging && (scrollSpeed == 0.0 || !hasScrollParent) ==>
        scrollTop == old(scrollTop) && children == old(children) && targetIndex == old(targetIndex)
    {
      if !isDragging {
        scrollLoopActive := false;
        scrollSpeed := 0.0;
        return;
      }
      if scrollSpeed != 0.0 && hasScrollParent {
        scrollTop := scrollTop + scrollSpeed;
        if last.Some? {
          CheckDropTarget(last.value.x, last.value.y, layout);
        }
      }
    }

    /** `onMouseUp(e)`: remove the move and up listeners, and finish a drag if one runs. */
    method OnMouseUp(app: App, shownPlaylistId: string)
      requires Valid() && app.Valid()
      modifies this`listening, this`children, this`scrollLoopActive, this`scrollSpeed, this`hasScrollParent,
        this`isDragging, this`draggedSongIds, this`targetIndex,
        app`library, app`queueIsLibrary, app`queue, app`currentIndex, app`playlists,
        app`currentView, app`selected, app`anchor
      ensures Valid() && app.Valid()
      ensures !listening && !isDragging
      ensures old(isDragging) ==>
        draggedSongIds == [] && targetIndex == -1 && scrollSpeed == 0.0 && !scrollLoopActive && !hasScrollParent
      ensures old(isDragging) && old(targetIndex) != -1 && old(draggedSongIds) != [] ==>
        Committed(app, view, NewOrder(old(children), old(draggedSongIds)), shownPlaylistId, old(app.library),
          old(app.playlists), old(app.queueIsLibrary), old(app.queue), old(app.currentIndex))
      ensures old(isDragging) && (old(targetIndex) == -1 || old(draggedSongIds) == []) ==>
        RowIds(children) == old(RowIds(children)) && unchanged(app)
      ensures !old(isDragging) ==>
        children == old(children) && draggedSongIds == old(draggedSongIds) && targetIndex == old(targetIndex) &&
        scrollSpeed == old(scrollSpeed) && scrollLoopActive == old(scrollLoopActive) && unchanged(app)
    {
      listening := false;
      if isDragging {
        FinishDrag(app, shownPlaylistId);
      }
    }

    /** `onKeyDown(e)`: Escape cancels a running drag. The listeners stay. */
    method OnKeyDown(key: string)
      requires Valid()
      modifies this`scrollLoopActive, this`scrollSpeed, this`hasScrollParent, this`isDragging,
        this`children, this`draggedSongIds, this`targetIndex
      ensures Valid()
      ensures RowIds(children) == old(RowIds(children))
      ensures key == "Escape" ==> !isDragging
      ensures key == "Escape" && old(isDragging) ==>
        draggedSongIds == [] && targetIndex == -1 && scrollSpeed == 0.0 && !scrollLoopActive && !hasScrollParent
      ensures key != "Escape" || !old(isDragging) ==>
        isDragging == old(isDragging) && draggedSongIds == old(draggedSongIds) && children == old(children) &&
        targetIndex == old(targetIndex) && scrollSpeed == old(scrollSpeed) &&
        scrollLoopActive == old(scrollLoopActive) && hasScrollParent == old(hasScrollParent)
    {
      if key == "Escape" && isDragging {
        CancelDrag();
      }
    }

    /** `cancelDrag()`: clean up without touching any list. */
    method CancelDrag()
      modifies this`scrollLoopActive, this`scrollSpeed, this`hasScrollParent, this`isDragging,
        this`children, this`draggedSongIds, this`targetIndex
      ensures Valid()
      ensures !isDragging && draggedSongIds == [] && targetIndex == -1 && scrollSpeed == 0.0
      ensures !scrollLoopActive && !hasScrollParent
      ensures RowIds(children) == old(RowIds(children))
    {
      Cleanup();
    }

    /** `finishDrag()`: reorder only with a drop target and something dragged, then clean up. */
    method FinishDrag(app: App, shownPlaylistId: string)
      requires Valid() && app.Valid()
      modifies this`children, this`scrollLoopActive, this`scrollSpeed, this`hasScrollParent, this`isDragging,
        this`draggedSongIds, this`targetIndex,
        app`library, app`queueIsLibrary, app`queue, app`currentIndex, app`playlists, app`currentView, app`selected, app`anchor
      ensures Valid() && app.Valid()
      ensures !isDragging && draggedSongIds == [] && targetIndex == -1 && scrollSpeed == 0.0
      ensures !scrollLoopActive && !hasScrollParent
      ensures old(targetIndex) == -1 || old(draggedSongIds) == [] ==>
        RowIds(children) == old(RowIds(children)) && unchanged(app)
      ensures old(targetIndex) != -1 && old(draggedSongIds) != [] ==>
        Committed(app, view, NewOrder(old(children), old(draggedSongIds)), shownPlaylistId, old(app.library),
          old(app.playlists), old(app.queueIsLibrary), old(app.queue), old(app.currentIndex))
    {
      if targetIndex != -1 && |draggedSongIds| > 0 {
        ExecuteReorder(app, shownPlaylistId);
      }
      Cleanup();
    }

    /** `cleanup()`: stop scrolling, remove the indicator, forget the drag. */
    method Cleanup()
      modifies this`scrollLoopActive, this`scrollSpeed, this`hasScrollParent, this`isDragging,
        this`children, this`draggedSongIds, this`targetIndex
      ensures Valid()
      ensures !isDragging && draggedSongIds == [] && targetIndex == -1
      ensures scrollSpeed == 0.0 && !scrollLoopActive && !hasScrollParent
      ensures children == RowsOf(old(RowIds(children)))
      ensures RowIds(children) == old(RowIds(children))
    {
      scrollLoopActive := false;
      scrollSpeed := 0.0;
      hasScrollParent := false;
      isDragging := false;
      RowsOfIds(RowIds(children));
      children := RowsOf(RowIds(children));
      draggedSongIds := [];
      targetIndex := -1;
    }

    /** `executeReorder()`: read the new id order out of the container, apply
        it to the library or to the playlist on show, and when that list backs
        the playback queue, replace the queue and move the current index to the
        track that was playing. The list is rendered again afterwards. */
    method ExecuteReorder(app: App, shownPlaylistId: string)
      requires app.Valid()
      modifies this`children,
        app`library, app`queueIsLibrary, app`queue, app`currentIndex, app`playlists, app`currentView, app`selected, app`anchor
      ensures app.Valid()
      ensures view == LibraryView ==>
        LibraryReordered(app, NewOrder(old(children), draggedSongIds), old(app.library), old(app.queueIsLibrary),
          old(app.queue), old(app.currentIndex)) &&
        app.playlists == old(app.playlists) && children == RowsOf(Ids(app.library))
      ensures view == PlaylistView ==>
        app.library == old(app.library) &&
        PlaylistReordered(app, NewOrder(old(children), draggedSongIds), shownPlaylistId, old(app.playlists),
          old(app.queueIsLibrary), old(app.queue), old(app.currentIndex)) &&
        (PlaylistIndex(old(app.playlists), shownPlaylistId).Some? ==> children == RowsOf(Ids(Materialise(NewOrder(old(children), draggedSongIds), app.library))))
      ensures view == NoView ==>
        app.library == old(app.library) && app.playlists == old(app.playlists) &&
        app.queue == old(app.queue) && app.currentIndex == old(app.currentIndex) && children == old(children)
    {
      var newIdList := CollectNewOrder(children, draggedSongIds);
      var currentSong := CurrentSong(app.queue, app.currentIndex);
      if view == LibraryView {
        ReorderLibrary(app, newIdList, currentSong);
      } else if view == PlaylistView {
        ReorderPlaylist(app, newIdList, currentSong, shownPlaylistId);
      }
    }

    /** The library branch of `executeReorder`: the library takes the new
        order, the list is rendered from it, and a queue that was the library
        becomes the new library. */
    method ReorderLibrary(app: App, newIdList: seq<SongId>, currentSong: Option<Song>)
      requires app.Valid() && currentSong == CurrentSong(app.queue, app.currentIndex)
      modifies this`children, app`library, app`queueIsLibrary, app`queue, app`currentIndex
      ensures app.Valid()
      ensures LibraryReordered(app, newIdList, old(app.library), old(app.queueIsLibrary), old(app.queue), old(app.currentIndex))
      ensures children == RowsOf(Ids(app.library))
    {
      var isPlayingLibrary := app.queueIsLibrary;
      var newLibrary := RebuildLibrary(newIdList, app.library);
      app.library := newLibrary;
      app.queueIsLibrary := false;
      children := RowsOf(Ids(newLibrary));
      if isPlayingLibrary && |newLibrary| > 0 {
        ReplaceQueue(app, newLibrary, currentSong, true);
      }
    }

    /** The playlist branch of `executeReorder`: the playlist found by id
        takes the new order and is opened again; when the queue held exactly
        that playlist, it becomes the playlist's new track list. */
    method ReorderPlaylist(app: App, newIdList: seq<SongId>, currentSong: Option<Song>, shownPlaylistId: string)
      requires app.Valid() && currentSong == CurrentSong(app.queue, app.currentIndex)
      modifies this`children, app`queueIsLibrary, app`queue, app`currentIndex, app`playlists, app`currentView, app`selected, app`anchor
      ensures app.Valid()
      ensures PlaylistReordered(app, newIdList, shownPlaylistId, old(app.playlists), old(app.queueIsLibrary), old(app.queue), old(app.currentIndex))
      ensures PlaylistIndex(old(app.playlists), shownPlaylistId).Some? ==> children == RowsOf(Ids(Materialise(newIdList, app.library)))
    {
      var found := PlaylistIndex(app.playlists, shownPlaylistId);
      if found.Some? {
        var pi := found.value;
        var oldPlaylistIds := app.playlists[pi].songs;
        var isPlayingPlaylist := Ids(app.queue) == oldPlaylistIds;
        app.playlists := app.playlists[pi := app.playlists[pi].(songs := newIdList)];
        app.OpenPlaylist(pi);
        children := RowsOf(Ids(app.PlaylistSongs(pi)));
        var newQueue := Materialise(newIdList, app.library);
        if isPlayingPlaylist && |newQueue| > 0 {
          ReplaceQueue(app, newQueue, currentSong, false);
        }
      }
    }
  }

  /** The selection once a drag starts: a single dragged row that was not
      selected becomes the whole selection; otherwise it stays as it was. */
  predicate SelectionOnStart(selected: seq<SongId>, before: seq<SongId>, dragged: seq<SongId>)
  {
    (|dragged| == 1 && dragged[0] !in before ==> selected == dragged) &&
    (!(|dragged| == 1 && dragged[0] !in before) ==> selected == before)
  }

  /** The hit test found a nearest on-screen row and, while dragging, moved
      the indicator from its place in `before` to that row's side facing the
      mouse, giving `after`. */
  ghost predicate PlacedNearest(y: int, layout: Layout, before: seq<Child>, after: seq<Child>, dragging: bool)
  {
    |layout.rows| == |RowIds(before)| &&
    exists k :: IsClosest(y, layout.rows, layout.viewportHeight, k) &&
      (dragging ==> after == MoveIndicator(before, k, 2 * y > Mid2(layout.rows[k])))
  }

  /** What `checkDropTarget(x, y)` leaves behind, from indicator placement
      `before` and target `beforeTarget`: a mouse outside the container's
      box sets the target to -1; otherwise the indicator goes by the nearest
      on-screen row; with no row on screen an empty list takes the drop at 0,
      a mouse below the last row puts the indicator after it, and anything
      else changes nothing. When no drag runs the indicator never moves. */
  ghost predicate HitTested(x: int, y: int, layout: Layout, before: seq<Child>, beforeTarget: int,
                            after: seq<Child>, target: int, dragging: bool)
  {
    |layout.rows| == |RowIds(before)| && (!dragging ==> after == before) &&
    if Outside(x, y, layout.box) then
      target == -1 && after == before
    else if AnyOnScreen(layout.rows, layout.viewportHeight) then
      target == 1 && PlacedNearest(y, layout, before, after, dragging)
    else if |layout.rows| == 0 then
      target == 0 && after == before
    else
      var lastRow := |layout.rows| - 1;
      if y > Bottom(layout.rows[lastRow]) then
        target == |layout.rows| && (dragging ==> after == MoveIndicator(before, lastRow, true))
      else
        target == beforeTarget && after == before
  }

  /** What `executeReorder` commits in view `view`: the library view reorders
      the library, the playlist view reorders the playlist on show, and with
      no view nothing changes; a queue that held the reordered list follows
      it. */
  ghost predicate Committed(app: App, view: View, newIds: seq<SongId>, playlistId: string,
                            oldLibrary: seq<Song>, oldPlaylists: seq<Playlist>,
                            wasLibrary: bool, oldQueue: seq<Song>, oldIndex: int)
    reads app
  {
    (view == LibraryView ==>
      LibraryReordered(app, newIds, oldLibrary, wasLibrary, oldQueue, oldIndex) && app.playlists == oldPlaylists) &&
    (view == PlaylistView ==>
      app.library == oldLibrary && PlaylistReordered(app, newIds, playlistId, oldPlaylists, wasLibrary, oldQueue, oldIndex)) &&
    (view == NoView ==>
      app.library == oldLibrary && app.playlists == oldPlaylists && app.queue == oldQueue && app.currentIndex == oldIndex)
  }

  /** The library after a reorder to `newIds` from `oldLibrary`, and the queue
      that follows it when it was the library. */
  ghost predicate LibraryReordered(app: App, newIds: seq<SongId>, oldLibrary: seq<Song>, wasLibrary: bool,
                                   oldQueue: seq<Song>, oldIndex: int)
    reads app
  {
    var newLibrary := Materialise(newIds, oldLibrary);
    app.library == newLibrary &&
    (wasLibrary && |newLibrary| > 0 ==>
      app.queue == newLibrary && app.queueIsLibrary &&
      app.currentIndex == ReconcileIndex(newLibrary, CurrentSong(oldQueue, oldIndex))) &&
    (!(wasLibrary && |newLibrary| > 0) ==>
      app.queue == oldQueue && !app.queueIsLibrary && app.currentIndex == oldIndex)
  }

  /** The playlists after the playlist with id `playlistId` is reordered to
      `newIds`, and the queue that follows it when it held that playlist. */
  ghost predicate PlaylistReordered(app: App, newIds: seq<SongId>, playlistId: string, oldPlaylists: seq<Playlist>,
                                    wasLibrary: bool, oldQueue: seq<Song>, oldIndex: int)
    reads app
  {
    var pi := PlaylistIndex(oldPlaylists, playlistId);
    (pi.None? ==>
      app.playlists == oldPlaylists && app.queue == oldQueue && app.currentIndex == oldIndex) &&
    (pi.Some? ==>
      var newQueue := Materialise(newIds, app.library);
      var backs := Ids(oldQueue) == oldPlaylists[pi.value].songs;
      app.playlists == oldPlaylists[pi.value := oldPlaylists[pi.value].(songs := newIds)] &&
      app.currentView == "playlist" && app.selected == [] && app.anchor == None &&
      (backs && |newQueue| > 0 ==>
        app.queue == newQueue && !app.queueIsLibrary &&
        app.currentIndex == ReconcileIndex(newQueue, CurrentSong(oldQueue, oldIndex))) &&
      (!(backs && |newQueue| > 0) ==>
        app.queue == oldQueue && app.queueIsLibrary == wasLibrary && app.currentIndex == oldIndex))
  }

  /** The end of `executeReorder`: the queue becomes `newQueue` and the
      current index goes to the track that was playing, or to 0. */
  method ReplaceQueue(app: App, newQueue: seq<Song>, currentSong: Option<Song>, isLibrary: bool)
    requires app.Valid() && |newQueue| > 0 && (isLibrary ==> newQueue == app.library)
    modifies app`queue, app`queueIsLibrary, app`currentIndex
    ensures app.Valid()
    ensures app.queue == newQueue && app.queueIsLibrary == isLibrary
    ensures app.currentIndex == ReconcileIndex(newQueue, currentSong)
  {
    app.queue := newQueue;
    app.queueIsLibrary := isLibrary;
    if currentSong.Some? {
      var newIndex := IndexOfId(newQueue, currentSong.value.id);
      if newIndex != -1 {
        app.currentIndex := newIndex;
      } else {
        app.currentIndex := 0;
      }
    } else {
      app.currentIndex := 0;
    }
  }
}
