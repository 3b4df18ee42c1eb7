/**
 * List slicing (read and write), single-index reads, the 32-bit narrowing
 * the slice code applies to its bounds, and the rule that copies a
 * finished frame's variables back into its caller.
 */
module InterpHelper {
  import opened KiwiErrors
  import opened Values
  import StackFrame

  /** The `[start:stop:step]` or `[index]` part of an expression, as values not yet checked. */
  datatype SliceIndex = SliceIndex(isSlice: bool, indexOrStart: Value, stopIndex: Value, stepValue: Value)

  const TwoTo31: int := 0x8000_0000
  const TwoTo32: int := 0x1_0000_0000

  /** The conversion of a 64-bit integer (or a size) to a 32-bit `int`: wrap-around modulo 2^32. */
  function ToInt32(x: int): (r: int)
    ensures -TwoTo31 <= r < TwoTo31
    ensures -TwoTo31 <= x < TwoTo31 ==> r == x
    ensures x >= 0 ==> r <= x
    ensures TwoTo31 <= x < TwoTo32 ==> r == x - TwoTo32
  {
    (x + TwoTo31) % TwoTo32 - TwoTo31
  }

  // ---------------------------------------------------------------------
  // Slice read
  // ---------------------------------------------------------------------

  /** `prefix` in front of a read that succeeded; a failed read stays failed. */
  function Prepend(prefix: seq<Value>, rest: Result<seq<Value>>): Result<seq<Value>> {
    match rest
    case Ok(tail) => Ok(prefix + tail)
    case Err(f) => Err(f)
  }

  /**
   * Elements at i, i+step, ... while below `stop`, stopping at the list
   * size `n`. The counter is a 32-bit `int`: a step that carries it past
   * the largest `int` wraps it to a negative index, which is still below
   * `stop` and below `n`, so the element read there is outside the vector.
   */
  function ForwardSlice(elems: seq<Value>, n: int, i: int, stop: int, step: int): Result<seq<Value>>
    requires n <= |elems| && -TwoTo31 <= i < TwoTo31 && 0 < step < TwoTo31
    decreases if 0 <= i < stop then stop - i else 0
  {
    if i >= stop || i >= n then Ok([])
    else if i < 0 then Err(Fatal(OutOfBoundsRead))
    else Prepend([elems[i]], ForwardSlice(elems, n, ToInt32(i + step), stop, step))
  }

  /** Elements at i, i+step, ... (step < 0) while at or above `stop`, stopping outside [0, n). */
  function BackwardSlice(elems: seq<Value>, n: int, i: int, stop: int, step: int): seq<Value>
    requires n <= |elems| && step < 0
    decreases if i >= stop then i - stop + 1 else 0
  {
    if i < stop || i < 0 || i >= n then []
    else [elems[i]] + BackwardSlice(elems, n, i + step, stop, step)
  }

  /** The normalised start of a slice read: a negative start counts from the end, clamped at 0. */
  function ReadStart(start: int, n: int): int {
    if start < 0 then (if start + n > 0 then start + n else 0) else start
  }

  /** The normalised stop of a slice read: a negative stop counts from the end, a large one is clamped to n. */
  function ReadStop(stop: int, n: int, step: int): int {
    var t := if stop < 0 then stop + n else (if stop < n then stop else n);
    if step < 0 && t == n then -1 else t
  }

  /**
   * The slice `list[start:stop:step]`. Bounds must be integers. A zero step
   * over a non-empty range never advances and grows the result without end.
   */
  function SliceRead(elems: seq<Value>, slice: SliceIndex): (r: Result<seq<Value>>)
    ensures !slice.indexOrStart.Int? ==> r == Err(Raise(IndexError, "Start index must be an integer."))
    ensures slice.indexOrStart.Int? && !slice.stopIndex.Int? ==>
              r == Err(Raise(IndexError, "Stop index must be an integer."))
    ensures slice.indexOrStart.Int? && slice.stopIndex.Int? && !slice.stepValue.Int? ==>
              r == Err(Raise(IndexError, "Step value must be an integer."))
  {
    if !slice.indexOrStart.Int? then Err(Raise(IndexError, "Start index must be an integer."))
    else if !slice.stopIndex.Int? then Err(Raise(IndexError, "Stop index must be an integer."))
    else if !slice.stepValue.Int? then Err(Raise(IndexError, "Step value must be an integer."))
    else
      var n := ToInt32(|elems|);
      var step := ToInt32(slice.stepValue.i);
      var start := ReadStart(ToInt32(slice.indexOrStart.i), n);
      var stop := ReadStop(ToInt32(slice.stopIndex.i), n, step);
      if step < 0 then
        Ok(BackwardSlice(elems, n, if start == 0 then n - 1 else start, stop, step))
      else if step == 0 then
        if start < stop && start < n then Err(Fatal(MemoryExhausted)) else Ok([])
      else
        ForwardSlice(elems, n, start, stop, step)
  }

  /** `list[index]`: a negative index counts from the end; anything still outside the list is a RangeError. */
  function IndexRead(elems: seq<Value>, index: Value): (r: Result<Value>)
    ensures !index.Int? ==> r == Err(Raise(IndexError, "Index value must be an integer."))
    ensures index.Int? && |elems| < TwoTo31 && -TwoTo31 <= index.i < TwoTo31 ==>
      (r.Ok? <==> -|elems| <= index.i < |elems|) &&
      (r.Ok? ==> r.value == elems[if index.i < 0 then index.i + |elems| else index.i]) &&
      (r.Err? ==> r == Err(Raise(RangeError, "List index out of range.")))
  {
    if !index.Int? then Err(Raise(IndexError, "Index value must be an integer."))
    else
      var n := ToInt32(|elems|);
      var i := ToInt32(index.i);
      var j := if i < 0 then i + n else i;
      if j < 0 || j >= n then Err(Raise(RangeError, "List index out of range."))
      else Ok(elems[j])
  }

  /** With step 1 the forward scan is a contiguous sub-sequence. */
  lemma {:induction false} ForwardSliceUnitStep(elems: seq<Value>, n: int, i: int, stop: int)
    requires 0 <= i <= stop <= n <= |elems| && n < TwoTo31
    ensures ForwardSlice(elems, n, i, stop, 1) == Ok(elems[i..stop])
    decreases stop - i
  {
    if i < stop {
      assert ToInt32(i + 1) == i + 1;
      ForwardSliceUnitStep(elems, n, i + 1, stop);
      assert ForwardSlice(elems, n, i, stop, 1) == Prepend([elems[i]], Ok(elems[i + 1..stop]));
      assert [elems[i]] + elems[i + 1..stop] == elems[i..stop];
    } else {
      assert elems[i..stop] == [];
    }
  }

  function Reverse(s: seq<Value>): (r: seq<Value>)
    ensures |r| == |s|
    ensures forall k :: 0 <= k < |s| ==> r[k] == s[|s| - 1 - k]
  {
    if s == [] then [] else Reverse(s[1..]) + [s[0]]
  }

  /** With step -1 down to index 0 the backward scan reverses the prefix it starts from. */
  lemma {:induction false} BackwardSliceUnitStep(elems: seq<Value>, n: int, i: int)
    requires -1 <= i < n <= |elems|
    ensures BackwardSlice(elems, n, i, -1, -1) == Reverse(elems[..i + 1])
    decreases i + 1
  {
    if i >= 0 {
      BackwardSliceUnitStep(elems, n, i - 1);
      var tail := Reverse(elems[..i]);
      var whole := Reverse(elems[..i + 1]);
      assert |whole| == |[elems[i]] + tail|;
      forall k | 0 <= k < |whole|
        ensures whole[k] == ([elems[i]] + tail)[k]
      {
      }
      assert whole == [elems[i]] + tail;
    }
  }

  /** For 0 <= start <= stop <= size and step 1, a slice read is exactly `list[start..stop)`. */
  lemma SliceReadContiguous(elems: seq<Value>, start: int, stop: int)
    requires |elems| < TwoTo31 && 0 <= start <= stop <= |elems|
    ensures SliceRead(elems, SliceIndex(true, Int(start), Int(stop), Int(1))) == Ok(elems[start..stop])
  {
    ForwardSliceUnitStep(elems, |elems|, start, stop);
  }

  /** `list[0:size:-1]`, the default reverse slice, is the whole list reversed. */
  lemma SliceReadReverse(elems: seq<Value>)
    requires |elems| < TwoTo31
    ensures SliceRead(elems, SliceIndex(true, Int(0), Int(|elems|), Int(-1))) == Ok(Reverse(elems))
  {
    var n := |elems|;
    assert ToInt32(n) == n && ToInt32(-1) == -1 && ToInt32(0) == 0;
    assert ReadStart(0, n) == 0 && ReadStop(n, n, -1) == -1;
    BackwardSliceUnitStep(elems, n, n - 1);
    assert elems[..n] == elems;
  }

  /** The descending read loop: append, step, leave below `stop` or outside the list. */
  method BackwardLoop(elems: seq<Value>, listSize: int, first: int, stop: int, step: int) returns (sliced: seq<Value>)
    requires listSize <= |elems| && step < 0
    ensures sliced == BackwardSlice(elems, listSize, first, stop, step)
  {
    sliced := [];
    var i := first;
    while i >= stop
      invariant sliced + BackwardSlice(elems, listSize, i, stop, step) == BackwardSlice(elems, listSize, first, stop, step)
      decreases i - stop + 1
    {
      if i < 0 || i >= listSize {
        break;
      }
      sliced := sliced + [elems[i]];
      i := i + step;
    }
    assert BackwardSlice(elems, listSize, i, stop, step) == [];
    assert sliced + [] == sliced;
  }

  /** One round of the ascending read: element i moves from the rest of the slice to the part already read. */
  lemma ForwardStep(elems: seq<Value>, n: int, i: int, stop: int, step: int, sliced: seq<Value>)
    requires n <= |elems| && 0 <= i < n && i < stop && i < TwoTo31 && 0 < step < TwoTo31
    ensures ToInt32(i + step) < 0 || ToInt32(i + step) == i + step
    ensures Prepend(sliced, ForwardSlice(elems, n, i, stop, step)) ==
            Prepend(sliced + [elems[i]], ForwardSlice(elems, n, ToInt32(i + step), stop, step))
  {
    CounterAdvance(i, step);
    var rest := ForwardSlice(elems, n, ToInt32(i + step), stop, step);
    assert ForwardSlice(elems, n, i, stop, step) == Prepend([elems[i]], rest);
    if rest.Ok? {
      assert sliced + ([elems[i]] + rest.value) == (sliced + [elems[i]]) + rest.value;
    }
  }

  /**
   * The ascending read loop: append, step the 32-bit counter, leave at
   * `stop` or at the end of the list. A counter that wrapped negative is
   * read through, out of bounds.
   */
  method ForwardLoop(elems: seq<Value>, listSize: int, first: int, stop: int, step: int) returns (r: Result<seq<Value>>)
    requires listSize <= |elems| && 0 <= first < TwoTo31 && 0 < step < TwoTo31
    ensures r == ForwardSlice(elems, listSize, first, stop, step)
  {
    var sliced := [];
    var i := first;
    ghost var whole := ForwardSlice(elems, listSize, first, stop, step);
    assert Prepend(sliced, whole) == whole by {
      if whole.Ok? {
        assert [] + whole.value == whole.value;
      }
    }
    while i < stop
      invariant -TwoTo31 <= i < TwoTo31
      invariant Prepend(sliced, ForwardSlice(elems, listSize, i, stop, step)) ==
                ForwardSlice(elems, listSize, first, stop, step)
      decreases if 0 <= i < stop then stop - i else 0
    {
      if i >= listSize {
        break;
      }
      if i < 0 {
        return Err(Fatal(OutOfBoundsRead));
      }
      ForwardStep(elems, listSize, i, stop, step, sliced);
      sliced := sliced + [elems[i]];
      i := ToInt32(i + step);
    }
    assert ForwardSlice(elems, listSize, i, stop, step) == Ok([]);
    assert sliced + [] == sliced;
    return Ok(sliced);
  }

  /**
   * The slice read as the source performs it: two counting loops that
   * append one element at a time.
   */
  method ReadSlice(elems: seq<Value>, slice: SliceIndex) returns (r: Result<seq<Value>>)
    ensures r == SliceRead(elems, slice)
  {
    if !slice.indexOrStart.Int? {
      return Err(Raise(IndexError, "Start index must be an integer."));
    } else if !slice.stopIndex.Int? {
      return Err(Raise(IndexError, "Stop index must be an integer."));
    } else if !slice.stepValue.Int? {
      return Err(Raise(IndexError, "Step value must be an integer."));
    }
    var start := ToInt32(slice.indexOrStart.i);
    var stop := ToInt32(slice.stopIndex.i);
    var step := ToInt32(slice.stepValue.i);
    var listSize := ToInt32(|elems|);
    start := if start < 0 then (if start + listSize > 0 then start + listSize else 0) else start;
    stop := if stop < 0 then stop + listSize else (if stop < listSize then stop else listSize);
    if step < 0 && stop == listSize {
      stop := -1;
    }
    if step < 0 {
      var sliced := BackwardLoop(elems, listSize, if start == 0 then listSize - 1 else start, stop, step);
      return Ok(sliced);
    }
    if step == 0 && start < stop && start < listSize {
      return Err(Fatal(MemoryExhausted));
    }
    if step == 0 {
      return Ok([]);
    }
    r := ForwardLoop(elems, listSize, start, stop, step);
  }

  // ---------------------------------------------------------------------
  // Slice write
  // ---------------------------------------------------------------------

  /** The list position the k-th stepped write targets: the 32-bit counter after k steps, wrapping as an `int` does. */
  function Pos(start: int, step: int, k: nat): int {
    if k == 0 then start else ToInt32(Pos(start, step, k - 1) + step)
  }

  /** The positions written by writes number j up to (not including) m. */
  function Positions(start: int, step: int, j: nat, m: nat): set<int> {
    set k: nat | j <= k < m :: Pos(start, step, k)
  }

  /**
   * The value the j-th stepped write copies: rhs[j], or, when the list is
   * its own right-hand side (`live`), element j of the list as it is at
   * that moment, earlier writes included.
   */
  function Copied(elems: seq<Value>, rhs: seq<Value>, live: bool, j: nat): Value
    requires if live then j < |elems| else j < |rhs|
  {
    if live then elems[j] else rhs[j]
  }

  /**
   * The stepped write loop from write number `j` on: position i = Pos(start,
   * step, j), the 32-bit counter, takes the j-th copied value while i differs from `stop`,
   * fewer than `rhsSize` values are written, and i is on the near side of
   * the bound the step direction checks (`i < n` going up, `i >= 0` going
   * down). A position the guard lets through that is not inside the vector,
   * such as a counter that wrapped negative, is an out-of-bounds write.
   * Yields the new elements and the number of writes.
   */
  function StepWrites(elems: seq<Value>, n: int, start: int, stop: int, step: int,
                      rhs: seq<Value>, rhsSize: int, live: bool, j: nat): (r: Result<(seq<Value>, nat)>)
    requires n <= |elems| && rhsSize <= |rhs| && j <= |rhs| && (live ==> rhsSize <= |elems|)
    ensures r.Ok? ==> |r.value.0| == |elems| && j <= r.value.1 <= |rhs|
    ensures r.Err? ==> r.failure == Fatal(OutOfBoundsWrite)
    decreases |rhs| - j
  {
    var i := Pos(start, step, j);
    if i == stop || j >= rhsSize then Ok((elems, j))
    else if (step > 0 && i < n) || (step < 0 && i >= 0) then
      if 0 <= i < |elems| then StepWrites(elems[i := Copied(elems, rhs, live, j)], n, start, stop, step, rhs, rhsSize, live, j + 1)
      else Err(Fatal(OutOfBoundsWrite))
    else Ok((elems, j))
  }

  /** One step of the counter from a position inside the list: going up it grows or wraps below zero; going down it shrinks. */
  lemma CounterAdvance(i: int, step: int)
    requires 0 <= i < TwoTo31 && -TwoTo31 <= step < TwoTo31
    ensures step > 0 ==> ToInt32(i + step) < 0 || ToInt32(i + step) == i + step
    ensures step < 0 ==> ToInt32(i + step) == i + step
  {
  }

  /**
   * Every write after write j lands strictly beyond write j's position in
   * the step's direction: the counter only moves on while it stays inside
   * the list.
   */
  lemma {:induction false} StepWritesAdvance(elems: seq<Value>, n: int, start: int, stop: int, step: int,
                                             rhs: seq<Value>, rhsSize: int, live: bool, j: nat)
    requires n <= |elems| && rhsSize <= |rhs| && j <= |rhs| && (live ==> rhsSize <= |elems|)
    requires -TwoTo31 <= start < TwoTo31 && -TwoTo31 <= step < TwoTo31
    requires StepWrites(elems, n, start, stop, step, rhs, rhsSize, live, j).Ok?
    ensures var m := StepWrites(elems, n, start, stop, step, rhs, rhsSize, live, j).value.1;
      forall k: nat :: j < k < m ==>
        (step > 0 ==> Pos(start, step, j) < Pos(start, step, k)) && (step < 0 ==> Pos(start, step, k) < Pos(start, step, j))
    decreases |rhs| - j
  {
    var i := Pos(start, step, j);
    if i == stop || j >= rhsSize {
    } else if (step > 0 && i < n) || (step < 0 && i >= 0) {
      var elems' := elems[i := Copied(elems, rhs, live, j)];
      StepWritesAdvance(elems', n, start, stop, step, rhs, rhsSize, live, j + 1);
      var m := StepWrites(elems, n, start, stop, step, rhs, rhsSize, live, j).value.1;
      assert m == StepWrites(elems', n, start, stop, step, rhs, rhsSize, live, j + 1).value.1;
      if j + 1 < m {
        // The next write happened, so the counter did not wrap on the way there.
        assert 0 <= Pos(start, step, j + 1) == ToInt32(i + step);
        CounterAdvance(i, step);
      }
    }
  }

  /** A position none of writes j up to the last targets keeps its element. */
  lemma {:induction false} StepWritesKeeps(elems: seq<Value>, n: int, start: int, stop: int, step: int,
                                           rhs: seq<Value>, rhsSize: int, live: bool, j: nat)
    requires n <= |elems| && rhsSize <= |rhs| && j <= |rhs| && (live ==> rhsSize <= |elems|)
    requires StepWrites(elems, n, start, stop, step, rhs, rhsSize, live, j).Ok?
    ensures var (res, m) := StepWrites(elems, n, start, stop, step, rhs, rhsSize, live, j).value;
      forall p :: 0 <= p < |res| && p !in Positions(start, step, j, m) ==> res[p] == elems[p]
    decreases |rhs| - j
  {
    var i := Pos(start, step, j);
    if i == stop || j >= rhsSize {
    } else if (step > 0 && i < n) || (step < 0 && i >= 0) {
      var elems' := elems[i := Copied(elems, rhs, live, j)];
      assert StepWrites(elems, n, start, stop, step, rhs, rhsSize, live, j) ==
             StepWrites(elems', n, start, stop, step, rhs, rhsSize, live, j + 1);
      StepWritesKeeps(elems', n, start, stop, step, rhs, rhsSize, live, j + 1);
      var (res, m) := StepWrites(elems, n, start, stop, step, rhs, rhsSize, live, j).value;
      forall p | 0 <= p < |res| && p !in Positions(start, step, j, m)
        ensures res[p] == elems[p]
      {
        assert p !in Positions(start, step, j + 1, m);
        assert p != i;
      }
    }
  }

  /** Write k, for every k from j up to the last, puts rhs[k] at the k-th counter position, inside the list. */
  lemma {:induction false} StepWritesHits(elems: seq<Value>, n: int, start: int, stop: int, step: int,
                                          rhs: seq<Value>, rhsSize: int, j: nat)
    requires n <= |elems| && rhsSize <= |rhs| && j <= |rhs|
    requires -TwoTo31 <= start < TwoTo31 && -TwoTo31 <= step < TwoTo31
    requires StepWrites(elems, n, start, stop, step, rhs, rhsSize, false, j).Ok?
    ensures var (res, m) := StepWrites(elems, n, start, stop, step, rhs, rhsSize, false, j).value;
      forall k: nat :: j <= k < m ==> 0 <= Pos(start, step, k) < |res| && res[Pos(start, step, k)] == rhs[k]
    decreases |rhs| - j
  {
    var i := Pos(start, step, j);
    if i == stop || j >= rhsSize {
    } else if (step > 0 && i < n) || (step < 0 && i >= 0) {
      var elems' := elems[i := rhs[j]];
      assert StepWrites(elems, n, start, stop, step, rhs, rhsSize, false, j) ==
             StepWrites(elems', n, start, stop, step, rhs, rhsSize, false, j + 1);
      StepWritesHits(elems', n, start, stop, step, rhs, rhsSize, j + 1);
      StepWritesAdvance(elems, n, start, stop, step, rhs, rhsSize, false, j);
      StepWritesKeeps(elems', n, start, stop, step, rhs, rhsSize, false, j + 1);
      var (res, m) := StepWrites(elems, n, start, stop, step, rhs, rhsSize, false, j).value;
      // Later writes move on from position i, so it keeps rhs[j].
      assert i !in Positions(start, step, j + 1, m);
    }
  }

  /**
   * The stepped write consumes rhs in order: write k puts rhs[k] at the
   * k-th counter position, inside the list, the positions move away from
   * the first one in the step's direction (so none is written twice), and
   * every position not written keeps its element.
   */
  lemma StepWritesShape(elems: seq<Value>, n: int, start: int, stop: int, step: int,
                        rhs: seq<Value>, rhsSize: int, j: nat)
    requires n <= |elems| && rhsSize <= |rhs| && j <= |rhs|
    requires -TwoTo31 <= start < TwoTo31 && -TwoTo31 <= step < TwoTo31
    requires StepWrites(elems, n, start, stop, step, rhs, rhsSize, false, j).Ok?
    ensures var (res, m) := StepWrites(elems, n, start, stop, step, rhs, rhsSize, false, j).value;
      (forall k: nat :: j <= k < m ==> 0 <= Pos(start, step, k) < |res| && res[Pos(start, step, k)] == rhs[k]) &&
      (forall k: nat :: j <= k < m ==>
        (step > 0 ==> Pos(start, step, j) <= Pos(start, step, k)) && (step < 0 ==> Pos(start, step, k) <= Pos(start, step, j))) &&
      (forall p :: 0 <= p < |res| && p !in Positions(start, step, j, m) ==> res[p] == elems[p])
  {
    StepWritesHits(elems, n, start, stop, step, rhs, rhsSize, j);
    StepWritesAdvance(elems, n, start, stop, step, rhs, rhsSize, false, j);
    StepWritesKeeps(elems, n, start, stop, step, rhs, rhsSize, false, j);
  }

  /** The normalised bounds of a slice write, as the source computes them. */
  datatype WriteBounds = WriteBounds(start: int, stop: int, step: int)

  function WriteBoundsOf(start: int, stop: int, step: int, n: int): WriteBounds {
    var s1 := if start < 0 then start + n else start;
    var t1 := if stop < 0 then stop + n else stop;
    var s2 := if s1 < 0 then 0 else s1;
    var t2 := if t1 > n then n else t1;
    var t3 := if step < 0 && t2 == n then -1 else t2;
    WriteBounds(s2, t3, step)
  }

  /**
   * The step-1 write: an empty range (start == stop) inserts rhs at start,
   * a non-empty one overwrites |rhs| elements from start; a range whose
   * start is after its stop, or an overwrite past the end, is an
   * out-of-bounds write.
   */
  function ContiguousWrite(elems: seq<Value>, start: int, stop: int, rhs: seq<Value>): (r: Result<seq<Value>>)
    requires 0 <= start && stop <= |elems|
    ensures r.Ok? ==> |r.value| == |elems| + (if start == stop then |rhs| else 0)
    ensures r.Err? <==> start > stop || (start < stop && start + |rhs| > |elems|)
  {
    if start >= stop then
      if start == stop then Ok(elems[..start] + rhs + elems[start..])
      else Err(Fatal(OutOfBoundsWrite))
    else if start + |rhs| <= |elems| then Ok(elems[..start] + rhs + elems[start + |rhs|..])
    else Err(Fatal(OutOfBoundsWrite))
  }

  /**
   * Writes `rhs` into a list through a slice or single index. With step 1,
   * an empty range (start == stop, which the single-element insert form
   * forces) inserts rhs at start, and a non-empty range overwrites
   * |rhs| elements from start. Any other step writes rhs element by element
   * along the step. An erase with its first position after its last, or a
   * copy running past the end, is an out-of-bounds write.
   *
   * `live` says the right-hand list is the list itself (its elements are
   * then `elems`, and `rhs` is not used): a step-1 write copies a vector
   * into itself, which C++ leaves undefined, and a stepped write reads
   * each value from the list as the earlier writes have left it.
   */
  function SliceWrite(elems: seq<Value>, insertOp: bool, slice: SliceIndex, rhs: seq<Value>, live: bool)
    : (r: Result<seq<Value>>)
    ensures !slice.indexOrStart.Int? ==> r == Err(Raise(IndexError, "Start index must be an integer."))
    ensures slice.indexOrStart.Int? && !slice.stopIndex.Int? ==>
              r == Err(Raise(IndexError, "Stop index must be an integer."))
    ensures slice.indexOrStart.Int? && slice.stopIndex.Int? && !slice.stepValue.Int? ==>
              r == Err(Raise(IndexError, "Step value must be an integer."))
    ensures r.Ok? ==> slice.indexOrStart.Int? && slice.stopIndex.Int? && slice.stepValue.Int?
  {
    if !slice.indexOrStart.Int? then Err(Raise(IndexError, "Start index must be an integer."))
    else if !slice.stopIndex.Int? then Err(Raise(IndexError, "Stop index must be an integer."))
    else if !slice.stepValue.Int? then Err(Raise(IndexError, "Step value must be an integer."))
    else
      var start := ToInt32(slice.indexOrStart.i);
      var stop := if !slice.isSlice && insertOp then start else ToInt32(slice.stopIndex.i);
      var step := ToInt32(slice.stepValue.i);
      var n := ToInt32(|elems|);
      var b := WriteBoundsOf(start, stop, step, n);
      if step == 1 then
        if live then Err(Fatal(AliasedCopy)) else ContiguousWrite(elems, b.start, b.stop, rhs)
      else
        var source := if live then elems else rhs;
        match StepWrites(elems, n, b.start, b.stop, step, source, ToInt32(|source|), live, 0)
        case Ok((res, _)) => Ok(res)
        case Err(f) => Err(f)
  }

  /**
   * Step 1 with start == stop inserts: the prefix, then rhs, then the old
   * suffix shifted right; the list grows by |rhs|.
   */
  lemma SliceWriteInsert(elems: seq<Value>, insertOp: bool, slice: SliceIndex, rhs: seq<Value>, s: int)
    requires |elems| < TwoTo31 && 0 <= s <= |elems|
    requires slice.indexOrStart == Int(s) && slice.stepValue == Int(1)
    requires slice.stopIndex == Int(s) || (slice.stopIndex.Int? && !slice.isSlice && insertOp)
    ensures SliceWrite(elems, insertOp, slice, rhs, false).Ok?
    ensures var res := SliceWrite(elems, insertOp, slice, rhs, false).value;
      |res| == |elems| + |rhs| &&
      res[..s] == elems[..s] && res[s..s + |rhs|] == rhs && res[s + |rhs|..] == elems[s..]
  {
  }

  /**
   * Step 1 with start < stop overwrites in place: positions
   * start..start+|rhs|-1 take rhs, the length stays, the rest is
   * unchanged; the write runs past the end exactly when start + |rhs| > size.
   */
  lemma SliceWriteOverwrite(elems: seq<Value>, slice: SliceIndex, rhs: seq<Value>, s: int, t: int)
    requires |elems| < TwoTo31 && 0 <= s < t <= |elems|
    requires slice == SliceIndex(true, Int(s), Int(t), Int(1))
    ensures SliceWrite(elems, false, slice, rhs, false).Ok? <==> s + |rhs| <= |elems|
    ensures s + |rhs| <= |elems| ==>
      var res := SliceWrite(elems, false, slice, rhs, false).value;
      |res| == |elems| && res[s..s + |rhs|] == rhs &&
      (forall p :: 0 <= p < |elems| && !(s <= p < s + |rhs|) ==> res[p] == elems[p])
  {
    if s + |rhs| <= |elems| {
      var res := SliceWrite(elems, false, slice, rhs, false).value;
      assert res == elems[..s] + rhs + elems[s + |rhs|..];
      forall p | 0 <= p < |elems| && !(s <= p < s + |rhs|)
        ensures res[p] == elems[p]
      {
        if p < s {
          assert res[p] == elems[..s][p];
        } else {
          assert res[p] == elems[s + |rhs|..][p - s - |rhs|];
        }
      }
    }
  }

  /**
   * Any step other than 1 keeps the length, writes at most |rhs| values in
   * order along the step's wrapping counter, and only at positions inside
   * the list.
   */
  lemma SliceWriteStepped(elems: seq<Value>, insertOp: bool, slice: SliceIndex, rhs: seq<Value>)
    requires |elems| < TwoTo31 && |rhs| < TwoTo31
    requires slice.indexOrStart.Int? && slice.stopIndex.Int? && slice.stepValue.Int?
    requires ToInt32(slice.stepValue.i) != 1
    requires SliceWrite(elems, insertOp, slice, rhs, false).Ok?
    ensures var start := ToInt32(slice.indexOrStart.i);
      var stop := if !slice.isSlice && insertOp then start else ToInt32(slice.stopIndex.i);
      var step := ToInt32(slice.stepValue.i);
      var b := WriteBoundsOf(start, stop, step, |elems|);
      var (res, m) := StepWrites(elems, |elems|, b.start, b.stop, step, rhs, |rhs|, false, 0).value;
      SliceWrite(elems, insertOp, slice, rhs, false) == Ok(res) &&
      |res| == |elems| && m <= |rhs| &&
      (forall k: nat :: k < m ==> 0 <= Pos(b.start, step, k) < |elems| && res[Pos(b.start, step, k)] == rhs[k]) &&
      (forall p :: 0 <= p < |res| && p !in Positions(b.start, step, 0, m) ==> res[p] == elems[p])
  {
    var start := ToInt32(slice.indexOrStart.i);
    var stop := if !slice.isSlice && insertOp then start else ToInt32(slice.stopIndex.i);
    var step := ToInt32(slice.stepValue.i);
    var b := WriteBoundsOf(start, stop, step, |elems|);
    StepWritesShape(elems, |elems|, b.start, b.stop, step, rhs, |rhs|, 0);
  }

  /**
   * A forward step that carries the write counter past the largest `int`
   * wraps it negative; the guard still lets it through, and the second
   * write lands outside the vector.
   */
  lemma SliceWriteCounterWrap(elems: seq<Value>, rhs: seq<Value>, s: int, t: int, step: int)
    requires |elems| < TwoTo31 && 2 <= |rhs| < TwoTo31
    requires 0 <= s < |elems| && 0 <= t <= |elems| && s != t
    requires 1 < step < TwoTo31 && s + step >= TwoTo31
    ensures SliceWrite(elems, false, SliceIndex(true, Int(s), Int(t), Int(step)), rhs, false) == Err(Fatal(OutOfBoundsWrite))
  {
    assert Pos(s, step, 1) == s + step - TwoTo32;
    var elems' := elems[s := rhs[0]];
    assert StepWrites(elems', |elems|, s, t, step, rhs, |rhs|, false, 1) == Err(Fatal(OutOfBoundsWrite));
  }

  /** A negative step starting at or past the end writes out of bounds as soon as it writes at all, whatever the source. */
  lemma SliceWriteNegativeStepPastEnd(elems: seq<Value>, slice: SliceIndex, rhs: seq<Value>, live: bool,
                                      s: int, t: int, step: int)
    requires |elems| < TwoTo31 && 0 < |rhs| < TwoTo31
    requires -TwoTo31 <= step < 0 && |elems| <= s < TwoTo31 && 0 <= t < |elems|
    requires slice == SliceIndex(true, Int(s), Int(t), Int(step))
    ensures SliceWrite(elems, false, slice, rhs, live) == Err(Fatal(OutOfBoundsWrite))
  {
  }

  /**
   * `a[0:6:2] = a` on a = [1, 2, 3, 4, 5, 6]: the list is its own source,
   * so the third write copies the 2 the second write left at index 2, and
   * the result is [1, 2, 2, 4, 2, 6]; from a separate list with the same
   * elements it is [1, 2, 2, 4, 3, 6].
   */
  lemma SliceWriteSelfSource()
    ensures var a := [Int(1), Int(2), Int(3), Int(4), Int(5), Int(6)];
      var slice := SliceIndex(true, Int(0), Int(6), Int(2));
      SliceWrite(a, false, slice, a, true) == Ok([Int(1), Int(2), Int(2), Int(4), Int(2), Int(6)]) &&
      SliceWrite(a, false, slice, a, false) == Ok([Int(1), Int(2), Int(2), Int(4), Int(3), Int(6)])
  {
    var a := [Int(1), Int(2), Int(3), Int(4), Int(5), Int(6)];
    assert ToInt32(0) == 0 && ToInt32(2) == 2 && ToInt32(6) == 6 && ToInt32(|a|) == 6;
    assert WriteBoundsOf(0, 6, 2, 6) == WriteBounds(0, 6, 2);
    assert Pos(0, 2, 1) == 2 && Pos(0, 2, 2) == 4 && Pos(0, 2, 3) == 6;
    var a1 := a[0 := a[0]];
    var a2 := a1[2 := a1[1]];
    var a3 := a2[4 := a2[2]];
    assert StepWrites(a3, 6, 0, 6, 2, a, 6, true, 3) == Ok((a3, 3));
    assert StepWrites(a, 6, 0, 6, 2, a, 6, true, 0) == Ok((a3, 3));
    assert a3 == [Int(1), Int(2), Int(2), Int(4), Int(2), Int(6)];
    var b3 := a[0 := a[0]][2 := a[1]][4 := a[2]];
    assert StepWrites(b3, 6, 0, 6, 2, a, 6, false, 3) == Ok((b3, 3));
    assert StepWrites(a, 6, 0, 6, 2, a, 6, false, 0) == Ok((b3, 3));
    assert b3 == [Int(1), Int(2), Int(2), Int(4), Int(3), Int(6)];
  }

  /** A step-1 write of a list into itself copies a vector onto its own elements, which C++ leaves undefined. */
  lemma SliceWriteSelfContiguous(elems: seq<Value>, insertOp: bool, slice: SliceIndex, rhs: seq<Value>)
    requires slice.indexOrStart.Int? && slice.stopIndex.Int? && slice.stepValue.Int? && ToInt32(slice.stepValue.i) == 1
    ensures SliceWrite(elems, insertOp, slice, rhs, true) == Err(Fatal(AliasedCopy))
  {
  }

  /** A slice read only yields elements of the list. */
  lemma {:induction false} ForwardSliceFrom(elems: seq<Value>, n: int, i: int, stop: int, step: int)
    requires n <= |elems| && -TwoTo31 <= i < TwoTo31 && 0 < step < TwoTo31
    ensures ForwardSlice(elems, n, i, stop, step).Ok? ==>
      forall x :: x in ForwardSlice(elems, n, i, stop, step).value ==> x in elems
    decreases if 0 <= i < stop then stop - i else 0
  {
    if 0 <= i < stop && i < n {
      ForwardSliceFrom(elems, n, ToInt32(i + step), stop, step);
    }
  }

  lemma {:induction false} BackwardSliceFrom(elems: seq<Value>, n: int, i: int, stop: int, step: int)
    requires n <= |elems| && step < 0
    ensures forall x :: x in BackwardSlice(elems, n, i, stop, step) ==> x in elems
    decreases if i >= stop then i - stop + 1 else 0
  {
    if !(i < stop || i < 0 || i >= n) {
      BackwardSliceFrom(elems, n, i + step, stop, step);
    }
  }

  /**
   * A forward step that carries the counter past the largest `int` makes
   * the next index negative, and the read there is outside the vector.
   */
  lemma SliceReadCounterWrap(elems: seq<Value>, s: int, t: int, step: int)
    requires |elems| < TwoTo31 && 0 <= s < t <= |elems| && 0 < step < TwoTo31 && s + step >= TwoTo31
    ensures SliceRead(elems, SliceIndex(true, Int(s), Int(t), Int(step))) == Err(Fatal(OutOfBoundsRead))
  {
    var wrapped := ToInt32(s + step);
    assert wrapped < 0;
    assert ForwardSlice(elems, |elems|, wrapped, t, step) == Err(Fatal(OutOfBoundsRead));
  }

  /** Reading a slice never invents a value: every element read is an element of the list. */
  lemma SliceReadFrom(elems: seq<Value>, slice: SliceIndex)
    ensures SliceRead(elems, slice).Ok? ==> forall x :: x in SliceRead(elems, slice).value ==> x in elems
  {
    if slice.indexOrStart.Int? && slice.stopIndex.Int? && slice.stepValue.Int? {
      var n := ToInt32(|elems|);
      var step := ToInt32(slice.stepValue.i);
      var start := ReadStart(ToInt32(slice.indexOrStart.i), n);
      var stop := ReadStop(ToInt32(slice.stopIndex.i), n, step);
      if step < 0 {
        BackwardSliceFrom(elems, n, if start == 0 then n - 1 else start, stop, step);
      } else if step > 0 {
        ForwardSliceFrom(elems, n, start, stop, step);
      }
    }
  }

  lemma {:induction false} StepWritesFrom(elems: seq<Value>, n: int, start: int, stop: int, step: int,
                                           rhs: seq<Value>, rhsSize: int, live: bool, j: nat)
    requires n <= |elems| && rhsSize <= |rhs| && j <= |rhs| && (live ==> rhsSize <= |elems|)
    ensures var r := StepWrites(elems, n, start, stop, step, rhs, rhsSize, live, j);
      r.Ok? ==> forall x :: x in r.value.0 ==> x in elems || x in rhs
    decreases |rhs| - j
  {
    var i := Pos(start, step, j);
    if i == stop || j >= rhsSize {
    } else if ((step > 0 && i < n) || (step < 0 && i >= 0)) && 0 <= i < |elems| {
      var elems' := elems[i := Copied(elems, rhs, live, j)];
      StepWritesFrom(elems', n, start, stop, step, rhs, rhsSize, live, j + 1);
      forall x | x in elems'
        ensures x in elems || x in rhs
      {
        var p :| 0 <= p < |elems'| && elems'[p] == x;
        if p != i {
          assert elems[p] == x;
        } else if live {
          assert elems[j] == x;
        }
      }
    }
  }

  /** Writing through a slice never invents a value: every element afterwards was in the list or in rhs. */
  lemma SliceWriteFrom(elems: seq<Value>, insertOp: bool, slice: SliceIndex, rhs: seq<Value>, live: bool)
    ensures var r := SliceWrite(elems, insertOp, slice, rhs, live);
      r.Ok? ==> forall x :: x in r.value ==> x in elems || x in rhs
  {
    if slice.indexOrStart.Int? && slice.stopIndex.Int? && slice.stepValue.Int? {
      var start := ToInt32(slice.indexOrStart.i);
      var stop := if !slice.isSlice && insertOp then start else ToInt32(slice.stopIndex.i);
      var step := ToInt32(slice.stepValue.i);
      var n := ToInt32(|elems|);
      var b := WriteBoundsOf(start, stop, step, n);
      if step != 1 {
        var source := if live then elems else rhs;
        StepWritesFrom(elems, n, b.start, b.stop, step, source, ToInt32(|source|), live, 0);
      } else if !live {
        var r := SliceWrite(elems, insertOp, slice, rhs, false);
        if r.Ok? {
          forall x | x in r.value
            ensures x in elems || x in rhs
          {
            if b.start >= b.stop {
              assert r.value == elems[..b.start] + rhs + elems[b.start..];
              assert x in elems[..b.start] || x in rhs || x in elems[b.start..];
            } else {
              assert r.value == elems[..b.start] + rhs + elems[b.start + |rhs|..];
              assert x in elems[..b.start] || x in rhs || x in elems[b.start + |rhs|..];
            }
          }
        }
      }
    }
  }

  /**
   * The stepped write loop of a slice assignment, on the list in place.
   * Each value is read from `rhsList` at the moment it is copied, so when
   * the two lists are one object the loop sees its own earlier writes.
   */
  method StepWriteLoop(targetList: KList, listSize: int, start: int, stop: int, step: int,
                       rhsList: KList, rhsSize: int) returns (r: Result<()>)
    requires listSize <= |targetList.elements| && rhsSize <= |rhsList.elements|
    modifies targetList
    ensures var spec := StepWrites(old(targetList.elements), listSize, start, stop, step,
                                   old(rhsList.elements), rhsSize, rhsList == targetList, 0);
      (r.Ok? <==> spec.Ok?) &&
      (r.Ok? ==> targetList.elements == spec.value.0) &&
      (r.Err? ==> r.failure == spec.failure)
  {
    ghost var elems0 := targetList.elements;
    ghost var rhs0 := rhsList.elements;
    ghost var live := rhsList == targetList;
    var rhsIndex := 0;
    var i := start;
    while i != stop && rhsIndex < rhsSize
      invariant 0 <= rhsIndex <= |rhs0| && i == Pos(start, step, rhsIndex)
      invariant |targetList.elements| == |elems0|
      invariant !live ==> rhsList.elements == rhs0
      invariant StepWrites(targetList.elements, listSize, start, stop, step, rhs0, rhsSize, live, rhsIndex) ==
                StepWrites(elems0, listSize, start, stop, step, rhs0, rhsSize, live, 0)
      decreases |rhs0| - rhsIndex
    {
      if (step > 0 && i < listSize) || (step < 0 && i >= 0) {
        if i < 0 || i >= |targetList.elements| {
          return Err(Fatal(OutOfBoundsWrite));
        }
        targetList.elements := targetList.elements[i := rhsList.elements[rhsIndex]];
        rhsIndex := rhsIndex + 1;
      } else {
        break;
      }
      i := ToInt32(i + step);
    }
    return Ok(());
  }

  /** The step-1 write of a slice assignment, on the list in place. */
  method ContiguousWriteInPlace(targetList: KList, start: int, stop: int, rhs: seq<Value>) returns (r: Result<()>)
    requires 0 <= start && stop <= |targetList.elements|
    modifies targetList
    ensures var spec := ContiguousWrite(old(targetList.elements), start, stop, rhs);
      (r.Ok? <==> spec.Ok?) &&
      (r.Ok? ==> targetList.elements == spec.value) &&
      (r.Err? ==> r.failure == spec.failure && targetList.elements == old(targetList.elements))
  {
    if start >= stop {
      if start != stop {
        return Err(Fatal(OutOfBoundsWrite));
      }
      targetList.elements := targetList.elements[..start] + rhs + targetList.elements[start..];
    } else {
      if start + |rhs| > |targetList.elements| {
        return Err(Fatal(OutOfBoundsWrite));
      }
      targetList.elements := targetList.elements[..start] + rhs + targetList.elements[start + |rhs|..];
    }
    return Ok(());
  }

  /**
   * A slice assignment into `targetList` from `rhsList`, which can be the
   * same list (`a[0:6:2] = a`): the right-hand size is taken once, before
   * any write, and each value is read when it is copied.
   */
  method UpdateListSlice(insertOp: bool, targetList: KList, slice: SliceIndex, rhsList: KList)
    returns (r: Result<()>)
    modifies targetList
    ensures var spec := SliceWrite(old(targetList.elements), insertOp, slice, old(rhsList.elements),
                                   rhsList == targetList);
      (r.Ok? <==> spec.Ok?) &&
      (r.Ok? ==> targetList.elements == spec.value) &&
      (r.Err? ==> r.failure == spec.failure)
    ensures r.Err? && r.failure.Thrown? ==> targetList.elements == old(targetList.elements)
  {
    if !slice.indexOrStart.Int? {
      return Err(Raise(IndexError, "Start index must be an integer."));
    } else if !slice.stopIndex.Int? {
      return Err(Raise(IndexError, "Stop index must be an integer."));
    } else if !slice.stepValue.Int? {
      return Err(Raise(IndexError, "Step value must be an integer."));
    }
    var start := ToInt32(slice.indexOrStart.i);
    var stop := ToInt32(slice.stopIndex.i);
    var step := ToInt32(slice.stepValue.i);
    if !slice.isSlice && insertOp {
      stop := start;
    }
    var listSize := ToInt32(|targetList.elements|);
    var rhsSize := ToInt32(|rhsList.elements|);
    if start < 0 {
      start := start + listSize;
    }
    if stop < 0 {
      stop := stop + listSize;
    }
    if start < 0 {
      start := 0;
    }
    if stop > listSize {
      stop := listSize;
    }
    if step < 0 && stop == listSize {
      stop := -1;
    }
    assert WriteBoundsOf(ToInt32(slice.indexOrStart.i),
                         if !slice.isSlice && insertOp then ToInt32(slice.indexOrStart.i) else ToInt32(slice.stopIndex.i),
                         step, listSize) == WriteBounds(start, stop, step);
    if step == 1 {
      if rhsList == targetList {
        return Err(Fatal(AliasedCopy));
      }
      var res := ContiguousWriteInPlace(targetList, start, stop, rhsList.elements);
      if res.Err? {
        return Err(res.failure);
      }
    } else {
      var res := StepWriteLoop(targetList, listSize, start, stop, step, rhsList, rhsSize);
      if res.Err? {
        return Err(res.failure);
      }
    }
    return Ok(());
  }

  // ---------------------------------------------------------------------
  // Copy-back of a finished frame's variables
  // ---------------------------------------------------------------------

  /** The caller's variables after copy-back: names it already has take the callee's value; no name is added. */
  function CopyBack(caller: map<string, Value>, callee: map<string, Value>): (r: map<string, Value>)
    ensures r.Keys == caller.Keys
  {
    map k | k in caller :: if k in callee then callee[k] else caller[k]
  }

  /** Copy-back never adds a name, takes the callee's value for every shared name, and is idempotent. */
  lemma CopyBackProperties(caller: map<string, Value>, callee: map<string, Value>)
    ensures forall k :: k in CopyBack(caller, callee) <==> k in caller
    ensures forall k :: k in caller && k in callee ==> CopyBack(caller, callee)[k] == callee[k]
    ensures forall k :: k in caller && k !in callee ==> CopyBack(caller, callee)[k] == caller[k]
    ensures CopyBack(CopyBack(caller, callee), callee) == CopyBack(caller, callee)
  {
  }

  /** Whether the caller's variables hold `varName`, so that copy-back writes it. */
  predicate ShouldUpdateFrameVariables(varName: string, frameVariables: map<string, Value>) {
    varName in frameVariables
  }

  /** Writes each variable of a finished frame into the caller, if the caller already has that name. */
  method UpdateVariablesInCallerFrame(variables: map<string, Value>, callerFrame: StackFrame.CallStackFrame)
    modifies callerFrame
    ensures callerFrame.variables == CopyBack(old(callerFrame.variables), variables)
    ensures callerFrame.flags == old(callerFrame.flags) && callerFrame.returnValue == old(callerFrame.returnValue)
    ensures callerFrame.objectContext == old(callerFrame.objectContext)
  {
    var pending := variables.Keys;
    ghost var done: set<string> := {};
    var updated := callerFrame.variables;
    while pending != {}
      invariant pending + done == variables.Keys && pending !! done
      invariant updated.Keys == old(callerFrame.variables).Keys
      invariant forall k :: k in updated ==>
        updated[k] == (if k in done then variables[k] else old(callerFrame.variables)[k])
      decreases |pending|
    {
      var name :| name in pending;
      if ShouldUpdateFrameVariables(name, updated) {
        updated := updated[name := variables[name]];
      }
      pending := pending - {name};
      done := done + {name};
    }
    assert updated == CopyBack(old(callerFrame.variables), variables);
    callerFrame.variables := updated;
  }
}
