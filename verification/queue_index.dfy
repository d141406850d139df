/** Index arithmetic of the playback queue in script.js: next and previous with
    JavaScript's remainder, the bounded shuffle retry, the repeat-mode cycle,
    and the current index reconciliation that the drag controller runs after a
    reorder. */
module QueueIndex {
  import opened Base

  datatype RepeatMode = Off | All | One

  /** `toggleRepeat`: off -> all -> one -> off. */
  function NextRepeatMode(m: RepeatMode): (r: RepeatMode)
    ensures r != m
  {
    match m
    case Off => All
    case All => One
    case One => Off
  }

  /** Three presses bring the mode back, and each press changes it. */
  lemma RepeatModeCycle(m: RepeatMode)
    ensures NextRepeatMode(m) != m
    ensures NextRepeatMode(NextRepeatMode(NextRepeatMode(m))) == m
  {
  }

  /** The quotient of a JavaScript division truncated toward zero,
      `Math.trunc(a / n)` for `n > 0`. */
  function JsQuot(a: int, n: int): int
    requires n > 0
  {
    if a >= 0 then a / n else -((-a) / n)
  }

  /** JavaScript's `a % n` for `n > 0`: what is left of `a` after taking away
      the truncated quotient's multiple of `n`, so it takes the sign of `a`. */
  function JsRem(a: int, n: int): (r: int)
    requires n > 0
    ensures a >= 0 ==> 0 <= r < n
    ensures a < 0 ==> -n < r <= 0
    ensures a == JsQuot(a, n) * n + r
  {
    if a >= 0 then a % n else -((-a) % n)
  }

  /** `(currentIndex + 1) % queue.length` */
  function NextIndex(i: int, len: nat): (r: int)
    requires len > 0
    ensures -1 <= i < len ==> 0 <= r < len
    ensures -1 <= i < len - 1 ==> r == i + 1
    ensures i == len - 1 ==> r == 0
  {
    if i == len - 1 then ModSelf(len); JsRem(i + 1, len)
    else if -1 <= i < len - 1 then ModBelow(i + 1, len); JsRem(i + 1, len)
    else JsRem(i + 1, len)
  }

  /** `(currentIndex - 1 + queue.length) % queue.length` */
  function PrevIndex(i: int, len: nat): (r: int)
    requires len > 0
    ensures -1 <= i < len ==> 0 <= r < len
    ensures 0 < i < len ==> r == i - 1
    ensures i == 0 ==> r == len - 1
  {
    if i == 0 then ModBelow(len - 1, len); JsRem(i - 1 + len, len)
    else if 0 < i < len then ModShift(i - 1, len); JsRem(i - 1 + len, len)
    else if i == -1 && len >= 2 then ModBelow(len - 2, len); JsRem(i - 1 + len, len)
    else JsRem(i - 1 + len, len)
  }

  lemma ModBelow(a: int, n: int)
    requires 0 <= a < n
    ensures a % n == a
  {
    assert a == 0 * n + a;
  }

  lemma ModSelf(n: int)
    requires n > 0
    ensures n % n == 0
  {
    assert n == 1 * n + 0;
  }

  /** From any index the queue can hold (including -1, nothing playing), next
      and previous land on a real entry. Next steps forward and wraps from the
      last entry to the first; previous steps back and wraps from the first
      entry to the last, and from -1 it lands on the second-to-last entry. */
  lemma StepIndices(i: int, len: nat)
    requires len >= 1 && -1 <= i < len
    ensures 0 <= NextIndex(i, len) < len && 0 <= PrevIndex(i, len) < len
    ensures NextIndex(i, len) == if i == len - 1 then 0 else i + 1
    ensures PrevIndex(i, len) == if i == 0 then len - 1 else if i == -1 then (if len == 1 then 0 else len - 2) else i - 1
  {
    if i + 1 == len {
      ModSelf(len);
    } else {
      ModBelow(i + 1, len);
    }
    if i == -1 && len == 1 {
      assert PrevIndex(i, len) == JsRem(-1, 1) == 0;
    } else if i == 0 {
      ModBelow(len - 1, len);
    } else if i == -1 {
      ModBelow(len - 2, len);
    } else {
      assert i - 1 + len == (i - 1) + 1 * len;
      ModBelow(i - 1, len);
      ModShift(i - 1, len);
    }
  }

  lemma ModShift(a: int, n: int)
    requires 0 <= a < n
    ensures (a + n) % n == a
  {
    assert a + n == 1 * n + a;
  }

  /** Previous undoes next on every real entry of the queue. */
  lemma PrevUndoesNext(i: int, len: nat)
    requires 0 <= i < len
    ensures PrevIndex(NextIndex(i, len), len) == i
  {
    StepIndices(i, len);
    StepIndices(NextIndex(i, len), len);
  }

  /** `Math.floor(Math.random() * queue.length)` with the random draw `r` supplied. */
  function Draw(r: real, len: nat): (d: int)
    ensures 0.0 <= r < 1.0 && len >= 1 ==> 0 <= d < len
  {
    var p := r * len as real;
    assert 0.0 <= r ==> 0.0 <= p;
    assert r < 1.0 && len >= 1 ==> p < len as real by {
      if r < 1.0 && len >= 1 {
        assert (1.0 - r) * len as real > 0.0;
      }
    }
    p.Floor
  }

  predicate ValidDraws(draws: seq<real>)
  {
    |draws| >= 5 && forall k :: 0 <= k < |draws| ==> 0.0 <= draws[k] < 1.0
  }

  /** How many draws the do-while loop of `playNext` consumes, counting from attempt `n`. */
  function Attempts(len: nat, current: int, draws: seq<real>, n: nat): (r: nat)
    requires 1 <= n <= 5 <= |draws|
    ensures n <= r <= 5
    decreases 5 - n
  {
    if len > 1 && Draw(draws[n - 1], len) == current && n < 5 then Attempts(len, current, draws, n + 1) else n
  }

  /** The index the shuffle settles on: the last draw the loop made. */
  function ShuffleIndex(len: nat, current: int, draws: seq<real>): (r: int)
    requires ValidDraws(draws)
    ensures len >= 1 ==> 0 <= r < len
  {
    Draw(draws[Attempts(len, current, draws, 1) - 1], len)
  }

  /** The do-while retry of `playNext` in shuffle mode. */
  method ShufflePick(len: nat, current: int, draws: seq<real>) returns (nextIndex: int, attempts: nat)
    requires ValidDraws(draws)
    ensures attempts == Attempts(len, current, draws, 1)
    ensures nextIndex == ShuffleIndex(len, current, draws)
  {
    attempts := 0;
    nextIndex := Draw(draws[attempts], len);
    attempts := attempts + 1;
    while len > 1 && nextIndex == current && attempts < 5
      invariant 1 <= attempts <= 5
      invariant nextIndex == Draw(draws[attempts - 1], len)
      invariant Attempts(len, current, draws, attempts) == Attempts(len, current, draws, 1)
      decreases 5 - attempts
    {
      nextIndex := Draw(draws[attempts], len);
      attempts := attempts + 1;
    }
  }

  /** At most five draws, each a real index of the queue, and the one chosen
      differs from the current index unless every one of the five draws hit
      it; a one-entry queue takes the first draw as it is. */
  lemma {:induction false} ShuffleFacts(len: nat, current: int, draws: seq<real>)
    requires ValidDraws(draws) && len >= 1
    ensures var n := Attempts(len, current, draws, 1);
      1 <= n <= 5 &&
      0 <= ShuffleIndex(len, current, draws) < len &&
      (len <= 1 ==> n == 1) &&
      (len > 1 && ShuffleIndex(len, current, draws) == current ==>
        n == 5 && forall k :: 0 <= k < 5 ==> Draw(draws[k], len) == current)
  {
    if len > 1 {
      AttemptsStopEarly(len, current, draws, 1);
    }
  }

  /** The loop stops before the fifth draw only on a draw that misses `current`;
      every earlier draw hit it. */
  lemma {:induction false} AttemptsStopEarly(len: nat, current: int, draws: seq<real>, n: nat)
    requires ValidDraws(draws) && len > 1 && 1 <= n <= 5
    requires forall k :: 0 <= k < n - 1 ==> Draw(draws[k], len) == current
    ensures var a := Attempts(len, current, draws, n);
      (forall k :: 0 <= k < a - 1 ==> Draw(draws[k], len) == current) &&
      (a < 5 ==> Draw(draws[a - 1], len) != current)
    decreases 5 - n
  {
    if Draw(draws[n - 1], len) == current && n < 5 {
      AttemptsStopEarly(len, current, draws, n + 1);
    }
  }

  /** `app.queue[app.currentIndex]`, undefined when the index is not a position of the queue. */
  function CurrentSong(queue: seq<Song>, i: int): (r: Option<Song>)
    ensures r.Some? <==> 0 <= i < |queue|
    ensures r.Some? ==> r.value == queue[i]
  {
    if 0 <= i < |queue| then Some(queue[i]) else None
  }

  /** The index `playSong` stores, `findIndex` of the played id, names a
      track exactly when the id is in the queue, and that track carries the
      id: `app.queue[app.currentIndex]` is then the played track's entry. */
  lemma CurrentSongOfId(queue: seq<Song>, id: SongId)
    ensures CurrentSong(queue, IndexOfId(queue, id)).Some? <==> id in Ids(queue)
    ensures CurrentSong(queue, IndexOfId(queue, id)).Some? ==>
      CurrentSong(queue, IndexOfId(queue, id)).value.id == id
  {
    if id in Ids(queue) {
      var k :| 0 <= k < |Ids(queue)| && Ids(queue)[k] == id;
      assert queue[k].id == id;
    }
  }

  /** The current index after a reorder: the new position of
      the track that was playing, or 0 when nothing was playing or that track
      is gone. */
  function ReconcileIndex(newQueue: seq<Song>, current: Option<Song>): (r: int)
    ensures |newQueue| > 0 ==> 0 <= r < |newQueue|
    ensures current.Some? && current.value.id in Ids(newQueue) ==> newQueue[r].id == current.value.id
    ensures current.None? || current.value.id !in Ids(newQueue) ==> r == 0
  {
    if current.Some? then
      var k := IndexOfId(newQueue, current.value.id);
      if k != -1 then k
      else
        assert current.value.id !in Ids(newQueue);
        0
    else 0
  }
}
