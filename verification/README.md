# Moadify player core in Dafny

A model of the playback and list-editing core of the Moadify desktop music
player, with proofs about it. The player keeps one `app` object
(script.js) holding:

- the track library and the playlists;
- the playback queue and its current index;
- the listening history;
- two audio elements that crossfade into each other;
- a multi-selection of tracks.

A `DragController` (drag-controller.js) lets the user drag one or several
rows of the library or of a playlist to a new position.

The model is split into modules that follow that structure:

| file | module | what it holds |
|---|---|---|
| `base.dfy` | `Base` | tracks, ids, `findIndex`, the `filter` and `Set.add` list idioms, and their multiset facts |
| `catalog.dfy` | `Catalog` | the id-to-track map, turning a playlist's id list into tracks, history, playlist lookup, pruning and de-duplicated appends |
| `time_format.dfy` | `TimeFormat` | `formatTime` and a parser that inverts it |
| `queue_index.dfy` | `QueueIndex` | next/previous index arithmetic with JavaScript's `%`, the shuffle draw, repeat modes, re-finding the playing track |
| `selection.dfy` | `Selection` | what a plain, ctrl- or shift-click does to the selection |
| `drag_geometry.dfy` | `DragGeometry` | the nearest-row hit test and the auto-scroll speed |
| `drag_order.dfy` | `DragOrder` | the container's children as rows plus one drop indicator, the new order read back from them, and the rebuilt library |
| `player.dfy` | `Player` | `class App`: the queue, the crossfade engine, the toggles, the selection handlers and the context-menu list edits |
| `drag_controller.dfy` | `DragControl` | `class DragController`: press, threshold, drag, auto-scroll frame, hit test, release, Escape, cleanup and the reorder commit |

The state the source changes in place is kept in classes whose methods name
the fields they change:

- `App` mirrors the `app` object.
- `DragController` mirrors the controller.
- Each of the two audio elements is a `Channel` value. It holds the bound
  track, the position, the volume, and the paused and muted flags.
- The list container's DOM children are a sequence of `Row(id)` and
  `Indicator`.
- The JavaScript test `app.queue === app.library` compares object identity.
  It is the boolean field `queueIsLibrary`, and `App.Valid()` keeps
  `queueIsLibrary ==> queue == library`.
- `selectedSongs` is a JavaScript `Set`. It is a duplicate-free sequence in
  insertion order, because its order becomes the order of a dragged block.

Arithmetic rules:

- Client coordinates are whole pixels.
- The row midpoint `top + height / 2` is compared doubled.
- Volumes, fade progress and scroll speed are `real`.
- JavaScript's `%` truncates toward zero and is written out as `JsRem`.

### Fade and click behaviour worth knowing

- `playImmediate` cancels a running fade and resets the other channel's
  volume to 1 (script.js:1426-1447).
- When a crossfade completes, the outgoing channel is paused and rewound,
  and its volume is set back to the master volume
  (script.js:1473-1493).
- The master volume is captured once, when the fade starts
  (script.js:1449-1494).
- Inside the shift branch of `handleSongClick` the test `!e.ctrlKey` is always
  true, so a shift-click always replaces the selection with the range
  (script.js:713-743).

### Behaviour worth knowing that the model reproduces

- A wheel event with `deltaY == 0` lowers the volume (script.js:1364-1370).
- `playPrev` with nothing playing (index -1) goes to the second-to-last
  entry (script.js:1611-1615).
- After a reorder, a queue that was replaced gets index 0 when nothing was
  playing (drag-controller.js:425-440).
- Deleting tracks from the library assigns a new library array, so the queue
  stops being "the library" and keeps the deleted tracks
  (script.js:1082-1108).
- Escape cancels a drag but leaves the move and release listeners
  installed. The next move past the threshold starts a drag with nothing
  dragged, and releasing it commits nothing (drag-controller.js:325-354).
- The auto-scroll frame keeps the previous drop target when no row is on
  screen and the mouse is not below the last row
  (drag-controller.js:260-275).

Inputs from outside the program are parameters:

- the mouse position and the layout boxes of each event;
- the elapsed milliseconds of a fade tick (`Date.now()`);
- the `Math.random()` draws of a shuffle, as reals in [0, 1);
- the confirmation answer of a delete dialog.

## Model

| member | source | states |
|---|---|---|
| Base.IndexOfId | script.js:1417 | `findIndex`: -1 or an index whose track has the id, and no earlier track has it |
| Base.IndexOfIdDistinct | script.js:1415-1424 | with unique ids, looking up the id of the track at `i` gives `i` back |
| Base.DropIds | script.js:1068-1076 | `filter(id => !gone.includes(id))`: an id survives iff it was there and is not removed |
| Base.DropSongs | script.js:1088-1094 | the library filter of a delete: a track survives iff it was there and its id is not deleted |
| Base.AddAllFresh | script.js:728-736 | adding distinct ids to an empty set yields them in order |
| Base.AddAllMembers | script.js:1139-1144 | `Set.add`/append-if-absent keeps the old list as a prefix and holds exactly the old and the new ids |
| Catalog.LibMap | drag-controller.js:384 | `new Map(library.map(s => [s.id, s]))` holds exactly the library's ids, each mapped to a track of the library with that id |
| Catalog.LibMapFindsTrack | drag-controller.js:384-389 | with unique ids, the map returns each track for its own id |
| Catalog.MaterialiseIds | script.js:917-920 | the tracks of a playlist carry exactly its ids that are in the library, in the playlist's order |
| Catalog.MaterialiseMembers | script.js:917-920 | a track is in the materialised list iff its id is listed and the library maps that id to it |
| Catalog.MaterialisePermutation | drag-controller.js:384-389 | rebuilding the library from a permutation of its ids gives a permutation of the library |
| Catalog.Materialise | script.js:917-920 | the tracks named by an id list are tracks of the library, at most one per id |
| Catalog.RecentlyPlayedAfter | script.js:139-147 | the played track comes first, no other entry has its id, the rest is the old history without that track, in order; the length is one more than that rest, but a rest already at 10 or more keeps its length |
| Catalog.RecentlyPlayedIdempotent | script.js:139-147 | on a history of at most 10 entries, playing the same track twice leaves the history as playing it once (a longer loaded history loses one entry per play) |
| Catalog.PlaylistIndex | drag-controller.js:402 | `playlists.find(p => p.id === id)`: the first playlist with that id, or none when no playlist has it |
| Catalog.PrunePlaylists | script.js:1088-1097 | deleting tracks removes exactly those ids from every playlist and keeps every playlist's id and name |
| Catalog.AppendMissing | script.js:1139-1144 | the loop appends each id not yet in the playlist, and the count is the number appended |
| Catalog.AddToPlaylistFacts | script.js:1139-1144 | adding keeps the playlist as a prefix, holds exactly old and new ids, stays duplicate-free and adds at most the number asked |
| TimeFormat.FormatTime | script.js:1656-1661 | `m:ss`: digits around a colon, exactly two second digits, the first at most 5, and no leading zero on a minute count of two or more digits |
| TimeFormat.Decimal | script.js:1660 | `${n}` prints only decimal digits, at least one, exactly one below ten, and starts with `0` only for zero |
| TimeFormat.TwoDigits | script.js:1660 | the seconds field is always two digits: a leading zero below ten, then the value |
| TimeFormat.FormatTimeRoundTrip | script.js:1656-1661 | parsing the formatted text gives back the whole number of seconds |
| TimeFormat.FormatTimeInjective | script.js:1656-1661 | two different durations never show the same text |
| TimeFormat.DecimalRoundTrip | script.js:1658-1660 | the minute count prints as decimal digits that parse back to it |
| QueueIndex.NextRepeatMode | script.js:1538-1555 | the repeat button's next mode always differs from the current one |
| QueueIndex.RepeatModeCycle | script.js:1538-1555 | the repeat button always changes the mode and cycles all, one, off with period three |
| QueueIndex.JsRem | script.js:1606 | JavaScript's `%`: the result has the sign of the dividend, is smaller than the divisor, and is the dividend minus the truncated quotient times the divisor |
| QueueIndex.NextIndex | script.js:1606 | `(i + 1) % length` stays in the queue for any index from -1 to the last, steps to the following entry, and wraps from the last entry to 0 |
| QueueIndex.PrevIndex | script.js:1613 | `(i - 1 + length) % length` stays in the queue for any index from -1 to the last, steps back one entry, and wraps from 0 to the last entry |
| QueueIndex.StepIndices | script.js:1606-1613 | next and previous stay in the queue; next wraps from the last entry to 0; previous wraps from 0 to the last entry and goes from -1 to the second-to-last |
| QueueIndex.PrevUndoesNext | script.js:1606-1613 | previous after next returns to the same entry |
| QueueIndex.Draw | script.js:1596 | `Math.floor(Math.random() * length)` with a draw in [0, 1) is an index of the queue |
| QueueIndex.ShuffleIndex | script.js:1596-1599 | the index the shuffle loop settles on is an index of a non-empty queue |
| QueueIndex.ShufflePick | script.js:1593-1600 | the `do … while` loop's index and attempt count are those of the shuffle definition |
| QueueIndex.Attempts | script.js:1596-1599 | counting from attempt n, the loop stops after n to 5 draws |
| QueueIndex.ShuffleFacts | script.js:1593-1600 | the shuffle makes 1 to 5 draws and picks an index of the queue; with one track it draws once; it repeats the playing track only after five draws that all hit it |
| QueueIndex.AttemptsStopEarly | script.js:1593-1600 | the loop stops at the first draw that differs from the playing track |
| QueueIndex.CurrentSongOfId | script.js:1417 | the index `findIndex` gives for a played id names a queue entry exactly when the id is in the queue, and that entry carries the id |
| QueueIndex.ReconcileIndex | drag-controller.js:425-440 | after a reorder the current index is inside the new queue, on the playing track when it is still there, and 0 otherwise |
| Selection.ClickOutcome | script.js:713-743 | every click keeps a duplicate-free selection duplicate-free and leaves the anchor in place or moves it to the clicked track |
| Selection.RangeIds | script.js:727-735 | the ids of the rows from the smaller to the larger index, both included |
| Selection.CtrlClickToggles | script.js:714-720 | ctrl-click toggles the clicked id, leaves every other id, moves the anchor only when adding, keeps the selection duplicate-free, and shift makes no difference |
| Selection.PlainClickSelectsOne | script.js:737-741 | a plain click, or a shift-click without an anchor, selects exactly the clicked track and anchors on it |
| Selection.ShiftClickRange | script.js:721-736 | shift-click selects exactly the rows between anchor and click, both included, keeps the anchor, and changes nothing when either is not in the list |
| Selection.ShiftClickSlice | script.js:721-736 | with unique ids the new selection is exactly that slice of the list, in list order |
| Selection.ShiftClickExample | script.js:721-736 | anchor on the second of five rows, shift-click on the fourth: rows two to four are selected |
| DragGeometry.FindClosest | drag-controller.js:236-251 | the loop finds a row iff one is on screen; it is the nearest by midpoint, the first on a tie; the drop goes after it iff the mouse is below its midpoint |
| DragGeometry.AutoScrollSpeed | drag-controller.js:146-160 | the speed is within ±15; up in the top zone, down in the bottom zone, zero outside both; full speed at or past an edge |
| DragGeometry.ScrollUpGrowsTowardEdge | drag-controller.js:151-155 | in the top zone, closer to the edge never scrolls up more slowly |
| DragGeometry.ScrollDownGrowsTowardEdge | drag-controller.js:156-159 | in the bottom zone, closer to the edge never scrolls down more slowly |
| DragOrder.RowsOfIds | drag-controller.js:343-354 | a freshly rendered list has no indicator and reads back the ids it was rendered from |
| DragOrder.AppendIndicator | drag-controller.js:108-111 | appending the indicator adds exactly one indicator and no row |
| DragOrder.Emit | drag-controller.js:363-371 | the indicator contributes exactly dragged ids, a row at most its own id and never a dragged one |
| DragOrder.NewOrder | drag-controller.js:358-372 | without an indicator the new order is no longer than the children |
| DragOrder.NewOrderSources | drag-controller.js:358-372 | every undragged id of the new order is a row of the container, and without an indicator no dragged id comes out |
| DragOrder.CollectNewOrder | drag-controller.js:358-372 | the loop over the children builds the new id list of the definition |
| DragOrder.NewOrderNoIndicator | drag-controller.js:362-372 | with no indicator in the list, the new order just drops the dragged ids |
| DragOrder.DragBlock | drag-controller.js:362-372 | with the indicator between two stretches of rows, the dragged block lands there, in drag order, and is removed from both stretches |
| DragOrder.NewOrderKeepsOthers | drag-controller.js:362-372 | rows that are not dragged keep their relative order |
| DragOrder.NewOrderPermutation | drag-controller.js:362-372 | with one indicator, unique rows and dragged ids taken from the rows, the new order is a permutation of the rows |
| DragOrder.MoveIndicator | drag-controller.js:287-296 | `before`/`after`: the rows are unchanged, there is exactly one indicator, and it sits just before row k or just after it |
| DragOrder.DropAtRow | drag-controller.js:287-296 | dropping at row k puts the dragged block before or after that row's position, with the rest in order |
| DragOrder.RebuildLibrary | drag-controller.js:384-389 | the loop builds the library from the new ids through the map, skipping unknown ids |
| DragOrder.LibraryReorderPermutation | drag-controller.js:356-398 | a library reorder permutes the library: no track is lost or duplicated |
| DragOrder.LibraryReorderKeepsNowPlaying | drag-controller.js:425-440 | after a library reorder the current index lands on the very track that was playing |
| DragOrder.ThreeRowExample | drag-controller.js:356-398 | dragging the third of three tracks above the first gives third, first, second |
| DragOrder.ThreeRowOrder | drag-controller.js:362-372 | with the indicator above the first of three rows and the third dragged, the collected ids are third, first, second |
| Player.Master | script.js:1441 | the master volume is in [0, 1] and is 0 exactly when the bar is at 0 |
| Player.FadeLaw | script.js:1473-1493 | during a fade the two volumes add up to the master volume, each stays within it, the incoming one never falls and the outgoing one never rises |
| Player.WheelVolume | script.js:1359-1377 | a wheel step moves the bar by 5 towards up (deltaY < 0) or down (otherwise), clamped to [0, 100] |
| Player.NextPick | script.js:1588-1609 | the next index, shuffled or not, is inside the queue whenever the current index is -1 or inside it |
| Player.StopsAtEnd | script.js:1602-1605 | `playNext` stops only where stepping on would wrap to the first entry |
| Player.App.constructor | script.js:1-34 | the state after start-up: empty queue at -1, repeat all, shuffle off, channel A active, the loaded library, playlists and history kept as loaded |
| Player.App.AddToRecentlyPlayed | script.js:139-147 | the history becomes the defined update of the old history |
| Player.App.PlayImmediate | script.js:1426-1447 | the active channel plays the track from 0 at the master volume; a running fade is cancelled, pausing the other channel and resetting its volume to 1 |
| Player.App.PerformCrossfade | script.js:1449-1494 | the channels swap roles; the new active one starts the track at volume 0; the fade records the master volume and the duration in ms |
| Player.App.FadeTick | script.js:1473-1493 | one tick sets the volumes by the fade law; at progress 1 the fade ends with the outgoing channel paused and rewound |
| Player.App.PlaySong | script.js:1415-1424 | the queue and current index are set from the chosen list; crossfades exactly when crossfade is on, something plays and no fade runs |
| Player.App.TogglePlay | script.js:1505-1519 | with a track bound, flips the active channel between paused and playing; with none, nothing changes |
| Player.App.PlayNext | script.js:1588-1609 | nothing happens on an empty queue or at the end with repeat off on an automatic advance; otherwise the chosen entry plays and the current index follows it |
| Player.App.AdvanceIndex | script.js:1588-1609 | on a non-empty queue, `playNext` either stops at the end (repeat off, automatic, not shuffling, on the last entry) with the index unchanged, or moves the index to the next pick |
| Player.App.PlayPrev | script.js:1611-1615 | nothing happens on an empty queue (index, history, playing flag, fade and both channels unchanged); otherwise the previous entry, wrapping, plays and enters the history |
| Player.App.HandleSongEnd | script.js:1521-1531 | the end of the inactive channel changes nothing; repeat one rewinds and unpauses the active channel and changes nothing else; otherwise the queue advances automatically: on an empty queue, or at the end with repeat off and shuffle off, nothing changes; else the next pick plays, enters the history, and the index follows it |
| Player.App.ToggleShuffle | script.js:1533-1536 | shuffle flips |
| Player.App.ToggleRepeat | script.js:1538-1555 | the repeat mode moves to the next one in the cycle and always changes |
| Player.App.ToggleMute | script.js:1557-1560 | only the active channel's mute flips |
| Player.App.VolumeWheel | script.js:1359-1377 | the bar takes the wheel step, the active channel takes the new master volume, and it is unmuted unless the bar reaches 0 |
| Player.App.HandleSongClick | script.js:713-743 | the selection and anchor become the click outcome of the selection before |
| Player.App.SelectRows | script.js:733-735 | the `for` loop adds the rows from start to end to the selection |
| Player.App.SwitchView | script.js:316-334 | the view changes and the selection and anchor are cleared |
| Player.App.BackgroundClick | script.js:89-110 | a click on empty content of the library or a playlist clears the selection but not the anchor; anything else leaves it |
| Player.App.SelectForContextMenu | script.js:1002-1007 | a right-click on an unselected track selects only it; on a selected one keeps the selection |
| Player.App.OpenPlaylist | script.js:904-920 | opening a playlist switches to the playlist view, clearing the selection and anchor |
| Player.App.AddToPlaylist | script.js:1113-1160 | the selection (when no track was given and it is not empty) or the one track is appended without duplicates; the count is the growth; a multi-track add clears the selection |
| Player.App.RemoveFromPlaylist | script.js:1068-1076 | exactly the selected ids (multi) or the one id leave that playlist, and it is reopened |
| Player.App.DeleteFromLibrary | script.js:1082-1108 | without confirmation nothing changes; otherwise the ids leave the library and every playlist, the queue stops being the library and the selection is cleared |
| DragControl.PastThreshold | drag-controller.js:79-84 | a move of more than five pixels along either axis starts a drag, one of at most three along both never does |
| DragControl.DragController.constructor | drag-controller.js:2-26 | the controller starts idle: no drag, no target (-1), no indicator |
| DragControl.DragController.OnMouseDown | drag-controller.js:33-75 | only a left press on a library row or on a non-album playlist row arms a drag; it drags the whole selection when the row is selected and the row alone otherwise; any other press changes no field |
| DragControl.DragController.OnMouseMove | drag-controller.js:77-89 | without an armed press no field changes; an armed press starts dragging exactly when the move is past the threshold, and below it no field changes; the start collapses the selection as `StartDrag` does, appends the indicator, requests the scroll loop; every move of a drag records the mouse, sets the auto-scroll speed and hit-tests as `HitTested` describes; rows never change |
| DragControl.DragController.BeginDrag | drag-controller.js:79-88 | the first move past the threshold starts the drag and updates it on the same event: selection collapsed, indicator appended and then placed by the hit test, scroll loop requested, speed set |
| DragControl.DragController.StartDrag | drag-controller.js:91-117 | dragging starts, one unselected dragged row becomes the selection, the indicator is appended and the scroll loop is requested |
| DragControl.DragController.UpdateDrag | drag-controller.js:137-175 | the mouse is remembered, the scroll speed follows the auto-scroll law, and the hit test at the mouse leaves the outcome `HitTested` describes |
| DragControl.DragController.CheckDropTarget | drag-controller.js:209-276 | `HitTested`: outside the box (20 pixels of slack on the right) the target is -1; otherwise the indicator goes before or after the nearest on-screen row (first one on a tie) and the target is 1; with no row on screen an empty list gives target 0, a mouse below the last row puts the indicator after it with target equal to the row count, and anything else changes nothing; rows never change |
| DragControl.DragController.PlaceNearest | drag-controller.js:253-259 | the indicator lands on the side of the nearest row that faces the mouse and the target becomes 1 |
| DragControl.DragController.PlaceFallback | drag-controller.js:260-275 | with no row on screen: target 0 for an empty list, the indicator after the last row when the mouse is below it, otherwise no change |
| DragControl.DragController.ShowDropIndicator | drag-controller.js:287-296 | the indicator moves before or after row k, and nothing happens when there is none |
| DragControl.DragController.ScrollTick | drag-controller.js:190-207 | a frame after the drag ended stops the loop and changes nothing else; a frame with a speed and a scroll parent scrolls by the speed and hit-tests again at the last mouse position; a frame without either changes nothing |
| DragControl.DragController.OnMouseUp | drag-controller.js:304-323 | release removes the listeners; a running drag is finished, committing the new order to the library (library view) or the shown playlist (playlist view) with the queue following, or nothing without a target or dragged rows, and the drag state is cleared; without a drag no list changes |
| DragControl.DragController.OnKeyDown | drag-controller.js:325-329 | Escape ends a running drag: nothing dragged or targeted, scrolling stopped; other keys, or Escape without a drag, change no field |
| DragControl.DragController.CancelDrag | drag-controller.js:331-333 | cancel cleans up without touching any list: nothing dragged or targeted, scrolling stopped |
| DragControl.DragController.FinishDrag | drag-controller.js:335-341 | with a target and dragged rows the new order is committed by view: the library view reorders the library, the playlist view the shown playlist, each with the queue following it; otherwise no list changes; the drag state is cleared either way |
| DragControl.DragController.Cleanup | drag-controller.js:343-354 | the indicator is removed, rows kept, scrolling stopped, and nothing is dragged or targeted |
| DragControl.DragController.ExecuteReorder | drag-controller.js:356-441 | the library or the shown playlist takes the new order and is rendered again; a queue that held that list follows it, with the current index on the playing track |
| DragControl.DragController.ReorderLibrary | drag-controller.js:379-398 | the library becomes the materialised new order; a queue that was the library becomes the new library |
| DragControl.DragController.ReorderPlaylist | drag-controller.js:400-422 | the playlist found by id takes the new ids and is reopened; a queue whose ids equalled it becomes its new tracks |
| DragControl.ReplaceQueue | drag-controller.js:425-440 | the queue is replaced and the current index goes to the playing track's new place, or 0 |

## Left out

- Rendering is not modelled: the DOM, the ghost element, the indicator's
  `display` style, CSS classes, the cursor and the selection highlighting.
  They do not affect the lists.
- Timers are not modelled. `setInterval`, `requestAnimationFrame` and
  `setTimeout` become methods called once per tick (`App.FadeTick`,
  `DragController.ScrollTick`).
- The audio `play()` promise, its rejection and the failure path of
  `setSongSource` are left out, along with media metadata. Audio playback is
  I/O.
- Saving to disk and the IPC bridge (`electronAPI`) are left out. So are
  Discord presence, the media session and the auto-crossfade trigger on the
  float `currentTime`. All of these are I/O or floating-point timing.
- Interleavings at `await` points are not modelled. Each handler runs to
  completion.
- The click-suppression handler installed on release is left out. It only
  swallows the following click event.
- The browser's clamping of `scrollTop` to the scrollable range is left out.
- The model assumes `container.closest('.view')` always finds a scroll
  parent.
- Client coordinates are taken as whole pixels, not floats.
- DragControl.DragController.OnMouseDown: requires that no drag is running
  when the press is a left one. A left press cannot arrive while the left
  button is still held for a drag; other presses are taken and ignored.
- Player.App.AddToPlaylist: requires a track or a non-empty selection. With
  neither, the source's `[song.id]` dereferences `null`.
- Player.App.AddToPlaylist: merges opening the dialog and choosing a
  playlist into one step. The source fixes the ids to add when the dialog
  opens (script.js:1123-1124); the model reads the selection at the choice,
  so a selection changed while the dialog is open is not modelled.
- TimeFormat.FormatTime: takes whole seconds. It does not model non-integer,
  negative or `NaN` durations.
